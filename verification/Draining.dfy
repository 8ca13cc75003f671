/** Connections outlive reloads, and listeners drain them (src/proxy_runtime/rama/ingress.rs:67-116, src/proxy_runtime/rama.rs:227-240). */
module Draining {
  import opened Basics
  import opened Config
  import opened Slots
  import opened SlotInvariants
  import opened SlotEffects
  import opened SessionRuns
  import Effective

  /** Connections and permits are as they were, and so is the task of every listener; there may be new listeners. */
  ghost predicate Quiet(s: Slot, s': Slot) {
    && s'.conns == s.conns && s'.permits == s.permits && |s.runtimes| <= |s'.runtimes|
    && forall h :: 0 <= h < |s.runtimes| ==> s'.runtimes[h].task == s.runtimes[h].task
  }

  lemma QuietTwice(s: Slot, t: Slot, s': Slot)
    requires Quiet(s, t) && Quiet(t, s')
    ensures Quiet(s, s')
  {
  }

  lemma QuietSame(s: Slot, s': Slot)
    requires s'.runtimes == s.runtimes && s'.conns == s.conns && s'.permits == s.permits
    ensures Quiet(s, s')
  {
  }

  lemma QuietDrop(s: Slot, hs: set<Handle>)
    ensures Quiet(s, Drop(s, hs))
  {
  }

  lemma QuietMove(s: Slot, hs: set<Handle>, p: Place)
    ensures Quiet(s, MoveTo(s, hs, p))
  {
  }

  lemma QuietUpdate(s: Slot, h: Handle, r: Runtime)
    requires h < |s.runtimes| && r.task == s.runtimes[h].task
    ensures Quiet(s, Update(s, h, r))
  {
  }

  /** From a slot that is quiet, with other fields changed. */
  lemma QuietFrom(s: Slot, t: Slot, s': Slot)
    requires Quiet(s, t) && s'.runtimes == t.runtimes && s'.conns == t.conns && s'.permits == t.permits
    ensures Quiet(s, s')
  {
  }

  lemma QuietReturn(s: Slot, op: OpId)
    requires op in s.ops
    ensures Quiet(s, Return(s, op)) && Return(s, op).conns == s.conns
  {
    hide Quiet; hide Drop;
    QuietDrop(s, Owned(s.ops[op]));
    QuietFrom(s, Drop(s, Owned(s.ops[op])), Return(s, op));
  }

  lemma QuietReply(s: Slot, op: OpId, answer: Answer)
    requires op in s.ops
    ensures Quiet(s, Reply(s, op, answer))
  {
    hide Quiet; hide Return;
    QuietReturn(s, op);
    QuietFrom(s, Return(s, op), Reply(s, op, answer));
  }

  lemma QuietPruned(s: Slot)
    requires s.entry.Some?
    ensures Quiet(s, Pruned(s)) && Quiet(s, Counted(Pruned(s)))
  {
    hide Quiet; hide Drop;
    QuietDrop(s, FinishedRetired(s));
    QuietFrom(s, Drop(s, FinishedRetired(s)), Pruned(s));
    QuietFrom(s, Drop(s, FinishedRetired(s)), Counted(Pruned(s)));
  }

  lemma QuietFirst(s: Slot, op: OpId, path: Option<string>)
    requires op in s.ops && s.ops[op].StartingFirst?
    ensures Quiet(s, DoStartFirst(s, op, path))
  {
  }

  lemma QuietPublish(acc: bool, s: Slot, op: OpId)
    requires op in s.ops && s.ops[op].Publishing? && s.ops[op].first < |s.runtimes|
    ensures Quiet(s, DoPublish(acc, s, op))
  {
    hide Quiet; hide MoveTo; hide Return;
    var first := s.ops[op].first;
    QuietMove(s, {first}, Current);
    QuietReturn(s, op);
    QuietFrom(s, if acc then MoveTo(s, {first}, Current) else Return(s, op), DoPublish(acc, s, op));
  }

  lemma QuietDecide(s: Slot, op: OpId)
    requires EndingAt(s, op)
    ensures Quiet(s, DoDecide(s, op))
  {
    hide Quiet; hide MoveTo; hide Drop; hide Return; hide AlreadyEnding; hide AllListeners; hide Ended; hide Named;
    var kind := s.ops[op].kind;
    QuietReturn(s, op);
    if s.entry.Some? {
      var all := AllListeners(s.entry.value);
      QuietMove(s, all, Held(op));
      QuietFrom(s, MoveTo(s, all, Held(op)), TakeAll(s, op, kind));
      if kind.Exit? {
        var u, hs := DropNamed(s, kind.event.generation), Named(s, kind.event.generation);
        QuietDrop(s, hs);
        QuietFrom(s, Drop(s, hs), u);
        QuietReturn(u, op);
        QuietTwice(s, u, Return(u, op));
      }
    }
  }

  lemma QuietJoin(s: Slot, op: OpId, h: Handle)
    requires op in s.ops
    ensures Quiet(s, DoJoin(s, op, h))
  {
    hide Quiet; hide Drop; hide Reply;
    QuietSame(s, s);
    QuietReply(s, op, Failed);
    QuietDrop(s, {h});
    var s' := DoJoin(s, op, h);
    if s'.runtimes == Drop(s, {h}).runtimes && s'.conns == s.conns && s'.permits == s.permits { QuietFrom(s, Drop(s, {h}), s'); }
  }

  lemma QuietErase(s: Slot, op: OpId)
    requires EndingAt(s, op)
    ensures Quiet(s, DoErase(s, op))
  {
    hide Quiet; hide Return;
    QuietReturn(s, op);
    QuietSame(s, Go(s, op, Ending(s.ops[op].kind, Counting)).(entry := None));
  }

  lemma QuietControl(acc: bool, s: Slot, c: Control)
    requires ControlEnabled(acc, s, c)
    ensures Quiet(s, ControlNext(acc, s, c))
  {
    hide Quiet; hide DoStartFirst; hide DoPublish; hide DoDecide; hide DoJoin; hide DoErase; hide Return; hide Pruned; hide Counted; hide Update;
    match c
    case StartFirst(op, path) => QuietFirst(s, op, path);
    case Unreserve(op) => QuietReturn(s, op); QuietFrom(s, Return(s, op), Return(s, op).(reserved := false));
    case Publish(op) => QuietPublish(acc, s, op);
    case Decide(op) => QuietDecide(s, op);
    case Join(op, h) => QuietJoin(s, op, h);
    case Erase(op) => QuietErase(s, op);
    case Count(op) => QuietReturn(s, op);
    case Cancel(op) => QuietReturn(s, op);
    case Prune => QuietPruned(s);
    case Signal(_, h) => QuietUpdate(s, h, s.runtimes[h].(cancelled := true));
    case Abort(_, h) => QuietUpdate(s, h, s.runtimes[h].(aborted := true));
    case Locate(op) => QuietReturn(s, op); QuietSame(s, Go(s, op, AwaitingLock(s.ops[op].goal)));
    case _ => QuietSame(s, ControlNext(acc, s, c));
  }

  lemma QuietPrepare(acc: bool, s: Slot, op: OpId)
    requires ReloadEnabled(s, Prepare(op))
    ensures Quiet(s, DoPrepare(acc, s, op))
  {
    hide Quiet; hide Pruned; hide Reply; hide Counted;
    QuietReply(s, op, Failed);
    if s.entry.Some? {
      PrunedMoves(s);
      QuietPruned(s);
      var p, s' := Counted(Pruned(s)), DoPrepare(acc, s, op);
      CountedOps(Pruned(s));
      QuietReply(p, op, Failed);
      QuietTwice(s, p, Reply(p, op, Failed));
      if s'.runtimes == p.runtimes && s'.conns == p.conns && s'.permits == p.permits { QuietFrom(s, p, s'); }
    }
  }

  lemma CountedOps(s: Slot)
    requires s.entry.Some?
    ensures Counted(s).ops == s.ops && Counted(s).entry.Some?
  {
  }

  lemma QuietPlan(acc: bool, s: Slot, op: OpId)
    requires ReloadEnabled(s, Plan(op))
    ensures Quiet(s, DoPlan(acc, s, op))
  {
    hide Quiet; hide Pruned; hide Reply;
    QuietReply(s, op, Failed);
    if s.entry.Some? {
      PrunedMoves(s);
      QuietPruned(s);
      var p, s' := Pruned(s), DoPlan(acc, s, op);
      QuietReply(p, op, Failed);
      QuietTwice(s, p, Reply(p, op, Failed));
      if s'.runtimes == p.runtimes && s'.conns == p.conns && s'.permits == p.permits { QuietFrom(s, p, s'); }
    }
  }

  lemma QuietSelect(acc: bool, s: Slot, op: OpId)
    requires ReloadEnabled(s, Select(op))
    ensures Quiet(s, DoSelect(acc, s, op))
  {
    hide Quiet; hide Reply; hide KeepLive;
    QuietReply(s, op, Failed);
    if acc && s.entry.Some? && s.entry.value.current.Some? {
      var h := s.entry.value.current.value;
      var kept := Forget(s, h);
      QuietUpdate(s, h, kept.runtimes[h]);
      QuietReply(kept, op, Failed);
      QuietTwice(s, kept, Reply(kept, op, Failed));
      var t := Reselect(kept, h, s.ops[op].reload.candidate);
      QuietUpdate(kept, h, t.runtimes[h]);
      QuietFrom(kept, Update(kept, h, t.runtimes[h]), t);
      QuietTwice(s, kept, t);
      QuietReply(t, op, Reloaded);
      QuietTwice(s, t, Reply(t, op, Reloaded));
    }
  }

  lemma QuietInstall(s: Slot, op: OpId, prior: Handle)
    requires ReloadingAt(s, op) && s.ops[op].reload.CuttingOver? && s.entry.Some? && prior < |s.runtimes|
    ensures Quiet(s, Install(s, op, prior))
  {
  }

  lemma QuietCutOver(acc: bool, s: Slot, op: OpId)
    requires ReloadEnabled(s, CutOver(op))
    ensures Quiet(s, DoCutOver(acc, s, op))
  {
    hide Quiet; hide Reply; hide Install;
    QuietReply(s, op, Failed);
    var c := s.ops[op].reload;
    QuietSame(s, Go(s, op, Reloading(Discarding(c.got, c.replacement))));
    if s.entry.Some? && s.entry.value.current.Some? { QuietInstall(s, op, s.entry.value.current.value); }
  }

  lemma QuietRetire(s: Slot, op: OpId)
    requires ReloadEnabled(s, Reload.Retire(op))
    ensures Quiet(s, DoRetire(s, op))
  {
  }

  lemma QuietStart(s: Slot, op: OpId, ok: bool)
    requires ReloadEnabled(s, Reload.StartReplacement(op, ok))
    ensures Quiet(s, DoStartReplacement(s, op, ok))
  {
    if !ok { hide Quiet; hide Reply; QuietReply(s, op, Failed); }
  }

  lemma QuietReload(acc: bool, s: Slot, r: Reload)
    requires ReloadEnabled(s, r)
    ensures Quiet(s, ReloadNext(acc, s, r))
  {
    hide Quiet; hide DoPrepare; hide DoSelect; hide DoPlan; hide DoStartReplacement; hide DoCutOver; hide DoRetire; hide Reply;
    hide Effective.SameConfiguration;
    match r
    case Prepare(op) => QuietPrepare(acc, s, op);
    case Select(op) => QuietSelect(acc, s, op);
    case Plan(op) => QuietPlan(acc, s, op);
    case StartReplacement(op, ok) => QuietStart(s, op, ok);
    case CutOver(op) => QuietCutOver(acc, s, op);
    case Retire(op) => QuietRetire(s, op);
    case BeginReload(op) => QuietSame(s, ReloadNext(acc, s, r));
    case StoreGate(op) => QuietSame(s, ReloadNext(acc, s, r));
    case Read(op, file) => QuietReply(s, op, Failed); if file.Some? { QuietSame(s, DoRead(s, op, file)); }
    case Compare(op) =>
      QuietReply(s, op, Failed);
      QuietReply(s, op, Unchanged);
      if DoCompare(s, op).runtimes == s.runtimes { QuietSame(s, DoCompare(s, op)); }
  }

  // ----- one step -----

  /** A connection ends only by itself, and a listener that drains it goes on draining unless it is aborted. */
  lemma ActDrains(acc: bool, s: Slot, a: Action, c: ConnId, h: Handle)
    requires Enabled(acc, s, a) && c in s.conns && s.conns[c].runtime == h && h < |s.runtimes| && s.runtimes[h].task.Draining?
    requires a != ByListener(ConnEnd(c))
    ensures var s' := Next(acc, s, a);
            c in s'.conns && s'.conns[c] == s.conns[c] && h < |s'.runtimes| && (s'.runtimes[h].task.Draining? || s.runtimes[h].aborted)
  {
    match a
    case ByControl(k) => hide ControlNext; hide ControlEnabled; QuietControl(acc, s, k);
    case ByReload(r) => hide ReloadNext; hide ReloadEnabled; QuietReload(acc, s, r);
    case ByListener(l) => ListenerDrains(s, l, c, h);
  }

  lemma ListenerDrains(s: Slot, l: Listener, c: ConnId, h: Handle)
    requires ListenerEnabled(s, l) && c in s.conns && s.conns[c].runtime == h && h < |s.runtimes| && s.runtimes[h].task.Draining?
    requires l != ConnEnd(c)
    ensures var s' := ListenerNext(s, l);
            c in s'.conns && s'.conns[c] == s.conns[c] && (s'.runtimes[h].task.Draining? || s.runtimes[h].aborted)
  {
  }

  lemma ActKeepsConnection(acc: bool, s: Slot, a: Action, c: ConnId)
    requires Enabled(acc, s, a) && c in s.conns && a != ByListener(ConnEnd(c))
    ensures c in Next(acc, s, a).conns && Next(acc, s, a).conns[c] == s.conns[c]
  {
    match a
    case ByControl(k) => hide ControlNext; hide ControlEnabled; QuietControl(acc, s, k);
    case ByReload(r) => hide ReloadNext; hide ReloadEnabled; QuietReload(acc, s, r);
    case ByListener(l) => ListenerKeepsConnection(s, l, c);
  }

  lemma ListenerKeepsConnection(s: Slot, l: Listener, c: ConnId)
    requires ListenerEnabled(s, l) && c in s.conns && l != ConnEnd(c)
    ensures c in ListenerNext(s, l).conns && ListenerNext(s, l).conns[c] == s.conns[c]
  {
  }

  // ----- runs -----

  lemma StepKeepsConnection(st: State, step: Step, c: ConnId)
    requires CanStep(st, step) && c in st.slot.conns && step != Act(ByListener(ConnEnd(c)))
    ensures c in After(st, step).slot.conns && After(st, step).slot.conns[c] == st.slot.conns[c]
  {
    hide Enabled; hide Next;
    if step.Act? { ActKeepsConnection(st.accepting, st.slot, step.action, c); }
  }

  /** No step of a reload, a stop or a shutdown releases a connection, its policy or its permit: only its own end does. */
  lemma {:induction false} ConnectionStays(limit: nat, states: seq<State>, steps: seq<Step>, i: nat, j: nat, c: ConnId)
    requires IsRun(limit, states, steps) && i <= j < |states| && c in states[i].slot.conns
    requires forall k :: i <= k < j ==> steps[k] != Act(ByListener(ConnEnd(c)))
    ensures c in states[j].slot.conns && states[j].slot.conns[c] == states[i].slot.conns[c]
    decreases j
  {
    hide CanStep; hide After; hide IsStart;
    if i < j {
      ConnectionStays(limit, states, steps, i, j - 1, c);
      assert CanStep(states[j - 1], steps[j - 1]) && states[j - 1 + 1] == After(states[j - 1], steps[j - 1]);
      StepKeepsConnection(states[j - 1], steps[j - 1], c);
    }
  }

  lemma StepDrains(st: State, step: Step, c: ConnId, h: Handle)
    requires CanStep(st, step) && c in st.slot.conns && st.slot.conns[c].runtime == h && h < |st.slot.runtimes|
    requires st.slot.runtimes[h].task.Draining? && step != Act(ByListener(ConnEnd(c))) && !st.slot.runtimes[h].aborted
    ensures h < |After(st, step).slot.runtimes| && After(st, step).slot.runtimes[h].task.Draining?
  {
    hide Enabled; hide Next;
    if step.Act? { ActDrains(st.accepting, st.slot, step.action, c, h); }
  }

  /** A listener that drains does not exit while a connection of it is open, unless it is aborted. */
  lemma {:induction false} DrainsUntilDone(limit: nat, states: seq<State>, steps: seq<Step>, i: nat, j: nat, c: ConnId, h: Handle)
    requires IsRun(limit, states, steps) && i <= j < |states| && c in states[i].slot.conns && states[i].slot.conns[c].runtime == h
    requires h < |states[i].slot.runtimes| && states[i].slot.runtimes[h].task.Draining?
    requires forall k :: i <= k < j ==> steps[k] != Act(ByListener(ConnEnd(c)))
    requires forall k :: i <= k < j && h < |states[k].slot.runtimes| ==> !states[k].slot.runtimes[h].aborted
    ensures h < |states[j].slot.runtimes| && states[j].slot.runtimes[h].task.Draining?
    decreases j
  {
    hide CanStep; hide After; hide IsStart;
    if i < j {
      DrainsUntilDone(limit, states, steps, i, j - 1, c, h);
      ConnectionStays(limit, states, steps, i, j - 1, c);
      assert CanStep(states[j - 1], steps[j - 1]) && states[j - 1 + 1] == After(states[j - 1], steps[j - 1]);
      StepDrains(states[j - 1], steps[j - 1], c, h);
    }
  }
}
