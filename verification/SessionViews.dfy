/**
 What the session registry sees of a session, and how each critical section changes it (src/control/session.rs:76-366,
 src/control/reload.rs:76-284).
 */
module SessionViews {
  import opened Basics
  import opened Config
  import opened Slots
  import opened SlotEffects
  import Effective
  import Runs = SessionRuns

  function Numbers(s: Slot): seq<nat> {
    seq(|s.runtimes|, i requires 0 <= i < |s.runtimes| => s.runtimes[i].generation)
  }

  function FinishedListeners(s: Slot): set<Handle> { set h | 0 <= h < |s.runtimes| && s.runtimes[h].task.Finished? }

  /** Operations that have erased their session and still have to decrement the gauge. */
  function CountingOps(s: Slot): set<OpId> { set op | op in s.ops && IsCounting(s.ops[op]) }

  /** `numbers` and `finished` are what `listener_generation()` and `is_finished()` answer for the handles. */
  datatype Seen = Seen(
    entry: Option<Session>, reserved: bool, gate: nat, numbers: seq<nat>, finished: set<Handle>, counting: set<OpId>)

  function SeenOf(s: Slot): Seen { Seen(s.entry, s.reserved, s.gate, Numbers(s), FinishedListeners(s), CountingOps(s)) }

  // ----- entries -----

  function NewEntry(config: SessionConfig, secrets: Secrets, source: Option<string>, socket: string, first: Handle): Session {
    Session(Running, config, secrets, source, socket, 1, 1, Some(first), {}, 0)
  }

  function WithRetired(x: Session, retired: set<Handle>): Session { x.(retired := retired, draining := |retired|) }

  /** The exit event names a listener that is not current. */
  predicate IsLate(x: Session, kind: EndKind) { kind.Exit? && x.listenerGeneration != kind.event.generation }

  /** The retired listeners of `x` that carry number `g`. */
  function Carrying(x: Session, numbers: seq<nat>, g: nat): set<Handle> {
    set h | h in x.retired && h < |numbers| && numbers[h] == g
  }

  function EventNumber(kind: EndKind): nat { if kind.Exit? then kind.event.generation else 0 }

  /** The entry after the section that ends a session. */
  function Decided(x: Session, kind: EndKind, numbers: seq<nat>): Session {
    if IsLate(x, kind) then WithRetired(x, x.retired - Carrying(x, numbers, EventNumber(kind)))
    else if AlreadyEnding(x, kind) then x
    else Ended(x)
  }

  /** What the section that ends a session hands to its caller. */
  function TakenBy(x: Session, kind: EndKind): Option<set<Handle>> {
    if IsLate(x, kind) || AlreadyEnding(x, kind) then None else Some(AllListeners(x))
  }

  /** The entry after a reload that keeps its socket path. */
  function Reselected(x: Session, candidate: Candidate): Session {
    WithRetired(x.(config := candidate.config, secrets := candidate.secrets, generation := Min(x.generation + 1, U64_MAX)),
                x.retired)
  }

  /** The entry after a cutover: the candidate is installed, the previous listener is retired. */
  function CutEntry(x: Session, candidate: Candidate, next: nat, replacement: Handle, prior: Handle): Session {
    WithRetired(CutOverEntry(x, candidate, next, replacement), x.retired + {prior})
  }

  // ----- changes that the registry does not see -----

  /** Listeners may change in all but number and end of task, operations in all but the debt. */
  ghost predicate Alike(s: Slot, s': Slot) {
    && |s'.runtimes| == |s.runtimes|
    && (forall h :: 0 <= h < |s.runtimes| ==>
                      s'.runtimes[h].generation == s.runtimes[h].generation
                      && s'.runtimes[h].task.Finished? == s.runtimes[h].task.Finished?)
    && s'.gate == s.gate
  }

  lemma AlikeSeen(s: Slot, s': Slot)
    requires Alike(s, s') && CountingOps(s') == CountingOps(s)
    ensures SeenOf(s') == SeenOf(s).(entry := s'.entry, reserved := s'.reserved)
  {
    hide CountingOps;
    assert Numbers(s') == Numbers(s);
    assert FinishedListeners(s') == FinishedListeners(s);
  }

  lemma MovesCounting(s: Slot, s': Slot, op: OpId)
    requires Moves(s, s', op)
    ensures CountingOps(s') == CountingOps(s)
  {
  }

  lemma AlikeFrom(s: Slot, t: Slot, s': Slot)
    requires Alike(s, t) && Alike(t, s')
    ensures Alike(s, s')
  {
  }

  lemma SameAlike(s: Slot, s': Slot)
    requires s'.runtimes == s.runtimes && s'.gate == s.gate
    ensures Alike(s, s')
  {
  }

  lemma DropAlike(s: Slot, hs: set<Handle>)
    ensures Alike(s, Drop(s, hs))
  {
  }

  lemma MoveAlike(s: Slot, hs: set<Handle>, p: Place)
    ensures Alike(s, MoveTo(s, hs, p))
  {
  }

  lemma UpdateAlike(s: Slot, h: Handle, r: Runtime)
    requires h < |s.runtimes| && r.generation == s.runtimes[h].generation && r.task.Finished? == s.runtimes[h].task.Finished?
    ensures Alike(s, Update(s, h, r))
  {
  }

  lemma ReturnAlike(s: Slot, op: OpId)
    requires op in s.ops
    ensures Alike(s, Return(s, op)) && CountingOps(Return(s, op)) == CountingOps(s) - {op}
  {
    var d := Drop(s, Owned(s.ops[op]));
    DropAlike(s, Owned(s.ops[op]));
    SameAlike(d, Return(s, op));
    AlikeFrom(s, d, Return(s, op));
    hide Alike; hide Drop;
  }

  lemma ReplyAlike(s: Slot, op: OpId, answer: Answer)
    requires op in s.ops
    ensures Alike(s, Reply(s, op, answer))
  {
    ReturnAlike(s, op);
    SameAlike(Return(s, op), Reply(s, op, answer));
    AlikeFrom(s, Return(s, op), Reply(s, op, answer));
    hide Alike; hide Return;
  }

  // ----- critical sections -----

  lemma PublishSeen(acc: bool, s: Slot, op: OpId)
    requires op in s.ops && s.ops[op].Publishing? && s.ops[op].first < |s.runtimes|
    ensures var s', c := DoPublish(acc, s, op), s.ops[op];
            SeenOf(s') == SeenOf(s).(
                          reserved := false,
                          entry := if acc then Some(NewEntry(c.config, c.secrets, c.source, s.runtimes[c.first].socket, c.first))
                                   else s.entry)
  {
    var s' := DoPublish(acc, s, op);
    assert Alike(s, s');
    assert CountingOps(s') == CountingOps(s);
    hide Alike; hide CountingOps; hide Return; hide MoveTo; hide Numbers; hide FinishedListeners;
    AlikeSeen(s, s');
  }

  lemma UnreserveSeen(s: Slot, op: OpId)
    requires op in s.ops && s.ops[op].Unreserving?
    ensures SeenOf(Return(s, op).(reserved := false)) == SeenOf(s).(reserved := false)
  {
    var s' := Return(s, op).(reserved := false);
    ReturnAlike(s, op);
    assert CountingOps(s') == CountingOps(s);
    hide CountingOps; hide Return; hide Numbers; hide FinishedListeners;
    AlikeSeen(s, s');
  }

  lemma DecideSeen(s: Slot, op: OpId)
    requires EndingAt(s, op) && s.ops[op].end.Deciding?
    ensures var s', kind := DoDecide(s, op), s.ops[op].kind;
            && SeenOf(s') == SeenOf(s).(entry := if s.entry.Some? then Some(Decided(s.entry.value, kind, Numbers(s))) else None)
            && (s.entry.Some? && TakenBy(s.entry.value, kind).Some? ==>
                  op in s'.ops && Owned(s'.ops[op]) == AllListeners(s.entry.value))
  {
    var s' := DoDecide(s, op);
    DecideMoves(s, op);
    MovesCounting(s, s', op);
    DecideAlike(s, op);
    AlikeSeen(s, s');
    DecideEntry(s, op);
    hide *;
  }

  lemma DecideAlike(s: Slot, op: OpId)
    requires EndingAt(s, op) && s.ops[op].end.Deciding?
    ensures Alike(s, DoDecide(s, op)) && DoDecide(s, op).reserved == s.reserved
  {
    hide AlreadyEnding; hide AllListeners; hide Ended; hide Named; hide Alike; hide Return; hide Drop; hide MoveTo;
    var kind := s.ops[op].kind;
    ReturnAlike(s, op);
    if s.entry.Some? {
      var all := AllListeners(s.entry.value);
      MoveAlike(s, all, Held(op));
      SameAlike(MoveTo(s, all, Held(op)), TakeAll(s, op, kind));
      AlikeFrom(s, MoveTo(s, all, Held(op)), TakeAll(s, op, kind));
      if kind.Exit? {
        var u, hs := DropNamed(s, kind.event.generation), Named(s, kind.event.generation);
        DropAlike(s, hs);
        SameAlike(Drop(s, hs), u);
        ReturnAlike(u, op);
        AlikeFrom(s, Drop(s, hs), u);
        AlikeFrom(s, u, Return(u, op));
      }
    }
  }

  lemma DecideEntry(s: Slot, op: OpId)
    requires EndingAt(s, op) && s.ops[op].end.Deciding?
    ensures var s', kind := DoDecide(s, op), s.ops[op].kind;
            && s'.entry == (if s.entry.Some? then Some(Decided(s.entry.value, kind, Numbers(s))) else None)
            && (s.entry.Some? && TakenBy(s.entry.value, kind).Some? ==>
                  op in s'.ops && Owned(s'.ops[op]) == AllListeners(s.entry.value))
  {
    hide Return; hide MoveTo; hide Drop; hide AllListeners; hide AlreadyEnding; hide Ended;
    var kind := s.ops[op].kind;
    if s.entry.Some? && kind.Exit? {
      assert Named(s, kind.event.generation) == Carrying(s.entry.value, Numbers(s), kind.event.generation);
    }
  }

  lemma EraseSeen(s: Slot, op: OpId)
    requires EndingAt(s, op) && s.ops[op].end.Erasing?
    ensures SeenOf(DoErase(s, op)) == SeenOf(s).(
                                      entry := None,
                                      counting := CountingOps(s) + if s.entry.Some? then {op} else {})
  {
    var s' := DoErase(s, op);
    if s.entry.None? { ReturnAlike(s, op); }
    assert Alike(s, s');
    assert Numbers(s') == Numbers(s);
    assert FinishedListeners(s') == FinishedListeners(s);
    hide Return; hide Alike; hide Numbers; hide FinishedListeners;
    assert CountingOps(s') == CountingOps(s) + if s.entry.Some? then {op} else {};
  }

  lemma CountSeen(s: Slot, op: OpId)
    requires EndingAt(s, op) && s.ops[op].end.Counting?
    ensures SeenOf(Return(s, op)) == SeenOf(s).(counting := CountingOps(s) - {op})
  {
    ReturnAlike(s, op);
    var s' := Return(s, op);
    assert Numbers(s') == Numbers(s);
    assert FinishedListeners(s') == FinishedListeners(s);
    hide Return; hide Alike; hide Numbers; hide FinishedListeners; hide CountingOps;
  }

  lemma PruneSeen(s: Slot)
    requires s.entry.Some?
    ensures SeenOf(Counted(Pruned(s))) == SeenOf(s).(
                                          entry := Some(WithRetired(s.entry.value, s.entry.value.retired - FinishedListeners(s))))
  {
    var s', x := Counted(Pruned(s)), s.entry.value;
    assert Alike(s, s');
    AlikeSeen(s, s');
    hide Drop; hide Alike;
    assert x.retired - FinishedRetired(s) == x.retired - FinishedListeners(s);
  }

  lemma PrepareSeen(acc: bool, s: Slot, op: OpId)
    requires ReloadEnabled(s, Prepare(op))
    ensures SeenOf(DoPrepare(acc, s, op)) == if s.entry.Some? then SeenOf(Counted(Pruned(s))) else SeenOf(s)
  {
    var s' := DoPrepare(acc, s, op);
    var p := if s.entry.Some? then Counted(Pruned(s)) else s;
    PrepareMoves(acc, s, op);
    MovesCounting(s, s', op);
    if s.entry.Some? { PrunedMoves(s); MovesCounting(s, p, op); }
    hide Alike; hide Moves; hide Numbers; hide FinishedListeners; hide Pruned; hide Reply; hide CountingOps;
    ReplyAlike(p, op, Failed);
    if s'.runtimes == p.runtimes { SameAlike(p, s'); }
    AlikeSeen(p, s');
  }

  lemma PlanSeen(acc: bool, s: Slot, op: OpId)
    requires ReloadEnabled(s, Plan(op))
    ensures SeenOf(DoPlan(acc, s, op)) == if acc && s.entry.Some? then SeenOf(Pruned(s)) else SeenOf(s)
  {
    var s' := DoPlan(acc, s, op);
    var p := if acc && s.entry.Some? then Pruned(s) else s;
    PlanMoves(acc, s, op);
    MovesCounting(s, s', op);
    if s.entry.Some? { PrunedMoves(s); MovesCounting(s, p, op); }
    hide Alike; hide Moves; hide Numbers; hide FinishedListeners; hide Pruned; hide Reply; hide CountingOps;
    ReplyAlike(p, op, Failed);
    if s'.runtimes == p.runtimes { SameAlike(p, s'); }
    AlikeSeen(p, s');
  }

  lemma SelectAlike(acc: bool, s: Slot, op: OpId)
    requires ReloadEnabled(s, Select(op))
    ensures Alike(s, DoSelect(acc, s, op))
  {
    hide Alike; hide Reply; hide KeepLive;
    ReplyAlike(s, op, Failed);
    if acc && s.entry.Some? && s.entry.value.current.Some? {
      var h := s.entry.value.current.value;
      var kept := Forget(s, h);
      UpdateAlike(s, h, kept.runtimes[h]);
      ReplyAlike(kept, op, Failed);
      AlikeFrom(s, kept, Reply(kept, op, Failed));
      var t := Reselect(kept, h, s.ops[op].reload.candidate);
      UpdateAlike(kept, h, t.runtimes[h]);
      SameAlike(Update(kept, h, t.runtimes[h]), t);
      AlikeFrom(kept, Update(kept, h, t.runtimes[h]), t);
      AlikeFrom(s, kept, t);
      ReplyAlike(t, op, Reloaded);
      AlikeFrom(s, t, Reply(t, op, Reloaded));
    }
  }

  lemma SelectEntry(acc: bool, s: Slot, op: OpId)
    requires ReloadEnabled(s, Select(op))
    ensures var s' := DoSelect(acc, s, op);
            && op in s'.answers && s'.reserved == s.reserved
            && s'.entry == if s'.answers[op] == Reloaded
                           then Some(Reselected(s.entry.value, s.ops[op].reload.candidate)) else s.entry
  {
    hide KeepLive; hide Return;
  }

  lemma SelectSeen(acc: bool, s: Slot, op: OpId)
    requires ReloadEnabled(s, Select(op))
    ensures var s' := DoSelect(acc, s, op);
            && op in s'.answers
            && SeenOf(s') == if s'.answers[op] == Reloaded
                             then SeenOf(s).(entry := Some(Reselected(s.entry.value, s.ops[op].reload.candidate)))
                             else SeenOf(s)
  {
    var s' := DoSelect(acc, s, op);
    SelectMoves(acc, s, op);
    MovesCounting(s, s', op);
    SelectAlike(acc, s, op);
    SelectEntry(acc, s, op);
    AlikeSeen(s, s');
    hide Alike; hide DoSelect; hide Numbers; hide FinishedListeners; hide CountingOps; hide Moves;
  }

  /** The slot after the three actions of a cutover, which run under one hold of the registry lock. */
  function CutSlot(s: Slot, op: OpId): Slot
    requires ReloadingAt(s, op) && s.ops[op].reload.CuttingOver? && s.entry.Some? && s.entry.value.current.Some?
    requires s.entry.value.current.value < |s.runtimes|
  {
    DoRetire(DoStoreGate(Install(s, op, s.entry.value.current.value), op), op)
  }

  predicate CanCut(acc: bool, s: Slot) {
    acc && s.entry.Some? && s.entry.value.lifecycle == Running && s.entry.value.current.Some?
  }

  /** A cutover is three actions. */
  lemma CutIsActions(s: Slot, op: OpId)
    requires ReloadEnabled(s, CutOver(op)) && CanCut(true, s)
    ensures var s1 := ReloadNext(true, s, CutOver(op));
            && ReloadEnabled(s1, StoreGate(op))
            && var s2 := ReloadNext(true, s1, StoreGate(op));
               ReloadEnabled(s2, Reload.Retire(op)) && ReloadNext(true, s2, Reload.Retire(op)) == CutSlot(s, op)
  {
    hide MoveTo; hide CutOverEntry; hide Reply;
  }

  lemma CutAlike(s: Slot, op: OpId)
    requires ReloadEnabled(s, CutOver(op)) && CanCut(true, s)
    ensures Alike(s, CutSlot(s, op).(gate := s.gate))
  {
    hide CutOverEntry;
  }

  lemma CutCounting(s: Slot, op: OpId)
    requires ReloadEnabled(s, CutOver(op)) && CanCut(true, s)
    ensures CountingOps(CutSlot(s, op)) == CountingOps(s)
  {
    hide MoveTo; hide CutOverEntry;
  }

  lemma CutSeen(s: Slot, op: OpId)
    requires ReloadEnabled(s, CutOver(op)) && CanCut(true, s)
    ensures var c, x := s.ops[op].reload, s.entry.value;
            SeenOf(CutSlot(s, op)) == SeenOf(s).(
                                      gate := c.next,
                                      entry := Some(CutEntry(x, c.candidate, c.next, c.replacement, x.current.value)))
  {
    var s' := CutSlot(s, op);
    var t := s'.(gate := s.gate);
    CutAlike(s, op);
    CutCounting(s, op);
    CountingSame(t, s');
    AlikeSeen(s, t);
    assert Numbers(t) == Numbers(s') && FinishedListeners(t) == FinishedListeners(s');
    hide Alike; hide MoveTo; hide Numbers; hide FinishedListeners; hide CountingOps;
  }

  lemma CutRefusedSeen(acc: bool, s: Slot, op: OpId)
    requires ReloadEnabled(s, CutOver(op)) && !CanCut(acc, s)
    ensures SeenOf(DoCutOver(acc, s, op)) == SeenOf(s)
  {
    var s' := DoCutOver(acc, s, op);
    CutOverMoves(acc, s, op);
    MovesCounting(s, s', op);
    hide Alike; hide Reply; hide Install; hide Numbers; hide FinishedListeners; hide CountingOps; hide Moves;
    ReplyAlike(s, op, Failed);
    if s'.runtimes == s.runtimes { SameAlike(s, s'); }
    AlikeSeen(s, s');
  }

  // ----- listeners -----

  lemma StartSeen(s: Slot, s': Slot, op: OpId, r: Runtime)
    requires op in s.ops && !IsCounting(s.ops[op]) && op in s'.ops && !IsCounting(s'.ops[op])
    requires s' == s.(runtimes := s.runtimes + [r], ops := s.ops[op := s'.ops[op]], committed := s'.committed) && !r.task.Finished?
    ensures SeenOf(s') == SeenOf(s).(numbers := Numbers(s) + [r.generation])
  {
    assert Numbers(s') == Numbers(s) + [r.generation];
    assert FinishedListeners(s') == FinishedListeners(s);
    assert CountingOps(s') == CountingOps(s);
  }

  lemma FinishSeen(s: Slot, h: Handle)
    requires ListenerEnabled(s, TaskEnd(h))
    ensures SeenOf(ListenerNext(s, TaskEnd(h))) == SeenOf(s).(finished := FinishedListeners(s) + {h})
  {
    var s' := ListenerNext(s, TaskEnd(h));
    assert Numbers(s') == Numbers(s);
    assert FinishedListeners(s') == FinishedListeners(s) + {h};
    assert CountingOps(s') == CountingOps(s);
  }

  // ----- actions that the registry does not see -----

  /** Critical sections, started listeners, finished listeners and the gauge; the others leave what the registry sees. */
  predicate IsSeen(a: Action) {
    match a
    case ByControl(c) =>
      (c.StartFirst? && c.path.Some?) || c.Unreserve? || c.Publish? || c.Decide? || c.Erase? || c.Count? || c.Prune?
    case ByReload(r) =>
      r.Prepare? || r.Select? || r.Plan? || (r.StartReplacement? && r.ok) || r.CutOver? || r.StoreGate? || r.Retire?
    case ByListener(l) => l.TaskEnd?
  }

  lemma BeginCounting(s: Slot, op: OpId, goal: Goal)
    requires op !in s.ops
    ensures CountingOps(Go(s, op, Locating(goal))) == CountingOps(s)
  {
  }

  lemma UnseenControl(acc: bool, s: Slot, c: Control)
    requires ControlEnabled(acc, s, c) && !IsSeen(ByControl(c))
    ensures var s' := ControlNext(acc, s, c); Alike(s, s') && s'.entry == s.entry && s'.reserved == s.reserved
  {
    hide Alike; hide Return; hide Drop; hide DoLocate; hide DoJoin; hide Update;
    var s' := ControlNext(acc, s, c);
    if s'.runtimes == s.runtimes && s'.gate == s.gate { SameAlike(s, s'); }
    match c
    case Locate(op) => LocateAlike(s, op);
    case Cancel(op) => ReturnAlike(s, op);
    case Signal(_, h) => TouchAlike(s, h, s.runtimes[h].(cancelled := true));
    case Abort(_, h) => TouchAlike(s, h, s.runtimes[h].(aborted := true));
    case Join(op, h) => JoinAlike(s, op, h);
    case _ =>
  }

  lemma LocateAlike(s: Slot, op: OpId)
    requires op in s.ops && s.ops[op].Locating?
    ensures var s' := DoLocate(s, op); Alike(s, s') && s'.entry == s.entry && s'.reserved == s.reserved
  {
    hide Alike; hide Return;
    ReturnAlike(s, op);
    SameAlike(s, Go(s, op, AwaitingLock(s.ops[op].goal)));
  }

  lemma TouchAlike(s: Slot, h: Handle, r: Runtime)
    requires h < |s.runtimes| && r.generation == s.runtimes[h].generation && r.task == s.runtimes[h].task
    ensures var s' := Update(s, h, r); Alike(s, s') && s'.entry == s.entry && s'.reserved == s.reserved
  {
    UpdateAlike(s, h, r);
  }

  lemma JoinAlike(s: Slot, op: OpId, h: Handle)
    requires ShuttingDown(s, op, h)
    ensures var s' := DoJoin(s, op, h); Alike(s, s') && s'.entry == s.entry && s'.reserved == s.reserved
  {
    hide Alike; hide Reply; hide Drop;
    DropAlike(s, {h});
    ReplyAlike(s, op, Failed);
    var s' := DoJoin(s, op, h);
    if s'.runtimes == Drop(s, {h}).runtimes && s'.gate == s.gate { SameAlike(Drop(s, {h}), s'); AlikeFrom(s, Drop(s, {h}), s'); }
  }

  lemma UnseenReload(acc: bool, s: Slot, r: Reload)
    requires ReloadEnabled(s, r) && !IsSeen(ByReload(r))
    ensures var s' := ReloadNext(acc, s, r); Alike(s, s') && s'.entry == s.entry && s'.reserved == s.reserved
  {
    var s' := ReloadNext(acc, s, r);
    hide Alike; hide Reply; hide Effective.SameConfiguration;
    if s'.runtimes == s.runtimes && s'.gate == s.gate { SameAlike(s, s'); }
    if !r.BeginReload? {
      ReplyAlike(s, r.op, Failed);
      ReplyAlike(s, r.op, Unchanged);
    }
  }

  lemma UnseenListener(s: Slot, l: Listener)
    requires ListenerEnabled(s, l) && !l.TaskEnd?
    ensures Alike(s, ListenerNext(s, l))
  {
    var s' := ListenerNext(s, l);
    hide Alike;
    if l.ConnEnd? {
      SameAlike(s, s');
    } else {
      var r := RuntimeNext(s, l);
      UpdateAlike(s, l.h, r);
      SameAlike(Update(s, l.h, r), s');
      AlikeFrom(s, Update(s, l.h, r), s');
    }
  }

  lemma BeginOps(acc: bool, s: Slot, a: Action)
    requires Enabled(acc, s, a) && Begins(a)
    ensures CountingOps(Next(acc, s, a)) == CountingOps(s)
  {
    hide CountingOps;
    var s' := Next(acc, s, a);
    match a
    case ByControl(c) =>
      var goal := ToEnd(if c.Deliver? then Exit(c.event) else c.kind);
      BeginCounting(s, c.op, goal);
      CountingSame(Go(s, c.op, Locating(goal)), s');
    case ByReload(r) =>
      BeginCounting(s, r.op, ToReload);
      CountingSame(Go(s, r.op, Locating(ToReload)), s');
  }

  lemma UnseenCounting(acc: bool, s: Slot, a: Action)
    requires Enabled(acc, s, a) && !IsSeen(a)
    ensures CountingOps(Next(acc, s, a)) == CountingOps(s)
  {
    hide CountingOps;
    if Begins(a) {
      BeginOps(acc, s, a);
      hide Next; hide Enabled;
    } else {
      hide Next; hide Enabled; hide Moves;
      ActionMoves(acc, s, a);
      MovesCounting(s, Next(acc, s, a), Mover(a));
    }
  }

  lemma CountingSame(s: Slot, s': Slot)
    requires s'.ops == s.ops
    ensures CountingOps(s') == CountingOps(s)
  {
  }

  /** An action that is neither a critical section nor an event of a listener changes nothing that the registry sees. */
  lemma Unseen(acc: bool, s: Slot, a: Action)
    requires Enabled(acc, s, a) && !IsSeen(a)
    ensures SeenOf(Next(acc, s, a)) == SeenOf(s)
  {
    var s' := Next(acc, s, a);
    UnseenCounting(acc, s, a);
    hide Alike; hide CountingOps; hide ControlNext; hide ReloadNext; hide ListenerNext; hide Numbers; hide FinishedListeners;
    hide ControlEnabled; hide ReloadEnabled; hide ListenerEnabled;
    match a {
      case ByControl(c) => UnseenControl(acc, s, c);
      case ByReload(r) => UnseenReload(acc, s, r);
      case ByListener(l) => UnseenListener(s, l);
    }
    AlikeSeen(s, s');
  }

  // ----- shutdown_all -----

  /** No operation is in flight: connections and exit handlers have ended. */
  predicate IsIdle(s: Slot) { s.ops == map[] && s.lock.None? }

  function Forgotten(s: Slot): Slot { s.(reserved := false) }

  /** A visit of an idle session finds it and its lock. */
  function Visiting(s: Slot): Slot
    requires s.entry.Some?
  {
    DoAcquire(DoLocate(Go(s, SWEEPER, Locating(ToEnd(Sweep))), SWEEPER), SWEEPER)
  }

  /** A session that a visit has found gives up its listeners; without an entry there is none. */
  function Visited(s: Slot): Slot { if s.entry.Some? then DoDecide(Visiting(s), SWEEPER) else s }

  /** The listeners that the visit took have been shut down. */
  function Joined(s: Slot): Slot {
    if SWEEPER in s.ops then Go(Drop(s, Owned(s.ops[SWEEPER])), SWEEPER, Ending(Sweep, Shutting({}))) else s
  }

  lemma ForgottenSeen(s: Slot)
    ensures SeenOf(Forgotten(s)) == SeenOf(s).(reserved := false)
  {
    SameAlike(s, Forgotten(s));
    CountingSame(s, Forgotten(s));
    AlikeSeen(s, Forgotten(s));
    hide Alike; hide Numbers; hide FinishedListeners; hide CountingOps;
  }

  lemma VisitingSeen(s: Slot)
    requires s.entry.Some? && IsIdle(s)
    ensures var t := Visiting(s);
            && SeenOf(t) == SeenOf(s) && t.ops == map[SWEEPER := Ending(Sweep, Deciding)] && t.entry == s.entry
            && EndingAt(t, SWEEPER)
  {
    var t := Visiting(s);
    SameAlike(s, t);
    assert CountingOps(t) == CountingOps(s);
    AlikeSeen(s, t);
    hide Alike; hide Numbers; hide FinishedListeners; hide CountingOps;
  }

  lemma VisitedOps(s: Slot)
    requires IsIdle(s)
    ensures var t := Visited(s);
            if s.entry.Some? then t.ops == map[SWEEPER := Ending(Sweep, Shutting(AllListeners(s.entry.value)))] && t.entry.Some?
            else t == s
  {
    if s.entry.Some? {
      VisitingSeen(s);
      hide Visiting; hide SeenOf; hide MoveTo; hide AllListeners;
    }
  }

  lemma JoinedSeen(s: Slot)
    requires CountingOps(s) == {}
    ensures SeenOf(Joined(s)) == SeenOf(s)
  {
    if SWEEPER in s.ops {
      var hs := Owned(s.ops[SWEEPER]);
      DropAlike(s, hs);
      SameAlike(Drop(s, hs), Joined(s));
      AlikeFrom(s, Drop(s, hs), Joined(s));
      hide Alike; hide Drop; hide Numbers; hide FinishedListeners;
      assert CountingOps(Joined(s)) == {};
      AlikeSeen(s, Joined(s));
    }
  }

  lemma ClearedSeen(s: Slot)
    requires Runs.IsSwept(s, SWEEPER)
    ensures CountingOps(s) == {} && SeenOf(Runs.Cleared(s)) == SeenOf(s).(entry := None)
  {
    SameAlike(s, Runs.Cleared(s));
    assert CountingOps(s) == {} && CountingOps(Runs.Cleared(s)) == {};
    AlikeSeen(s, Runs.Cleared(s));
    hide Alike; hide Numbers; hide FinishedListeners; hide CountingOps;
  }
}
