/** From the file that a reload reads to what it leaves, over whole runs (src/control/reload.rs:71-286). */
module ReloadRuns {
  import opened Basics
  import opened Config
  import opened Slots
  import opened SlotInvariants
  import opened SlotEffects
  import opened SessionViews
  import opened SessionRuns
  import SessionProperties
  import DaemonProofs
  import ReloadTheorems
  import Effective

  /** What a reload makes of a file: the session keeps the lifetime chosen when it was created. */
  function Filed(file: Candidate, persistent: bool): Candidate { file.(config := file.config.(persistent := persistent)) }

  predicate Holds(x: Session, c: Candidate) { x.config == c.config && x.secrets == c.secrets && x.socket == c.path }

  /** The reload is on its way with candidate `c`, or has just installed it. */
  ghost predicate Carries(s: Slot, op: OpId, c: Candidate) {
    ReloadingAt(s, op) &&
    match s.ops[op].reload
    case Preparing => false
    case Reading(_) => false
    case Comparing(_, d) => d == c
    case Selecting(_, d) => d == c
    case Planning(_, d) => d == c
    case Starting(_, d, _) => d == c
    case CuttingOver(_, d, _, _) => d == c
    case StoringGate(_) => s.entry.Some? && Holds(s.entry.value, c)
    case Retiring(_) => s.entry.Some? && Holds(s.entry.value, c)
    case Discarding(_, _) => true
  }

  /** The reload was cancelled; another operation under its name gets no further than its first section. */
  ghost predicate Lost(acc: bool, s: Slot, op: OpId) {
    !acc && (ReloadingAt(s, op) ==> s.ops[op].reload.Preparing?)
  }

  /** What the answer says about the session. */
  ghost predicate Answered(s: Slot, op: OpId, c: Candidate) {
    op in s.answers &&
    match s.answers[op]
    case Reloaded => s.entry.Some? && Holds(s.entry.value, c) && s.entry.value.lifecycle == Running
    case Unchanged =>
      && s.entry.Some? && Effective.SameConfiguration(c.config, s.entry.value.config)
      && s.entry.value.secrets == c.secrets && s.entry.value.socket == c.path
    case Failed => true
  }

  ghost predicate Tracked(acc: bool, s: Slot, op: OpId, c: Candidate) {
    if op in s.answers then Answered(s, op, c) else Carries(s, op, c) || Lost(acc, s, op)
  }

  // ----- steps of others -----

  function Owner(a: Action): Option<OpId> {
    match a
    case ByControl(c) => if c.Prune? then None else Some(c.op)
    case ByReload(r) => Some(r.op)
    case ByListener(_) => None
  }

  /** Operation `op` is as it was. */
  ghost predicate Alone(s: Slot, s': Slot, op: OpId) {
    && (op in s'.ops <==> op in s.ops) && (op in s.ops ==> s'.ops[op] == s.ops[op])
    && (op !in s.answers ==> op !in s'.answers)
  }

  lemma OthersAnswers(acc: bool, s: Slot, a: Action, op: OpId)
    requires Enabled(acc, s, a) && Owner(a) != Some(op) && op !in s.answers
    ensures op !in Next(acc, s, a).answers
  {
    match a
    case ByReload(r) => hide ReloadNext; hide ReloadEnabled; SessionProperties.AnswersOwn(acc, s, r);
    case ByListener(l) => hide ListenerNext; hide ListenerEnabled;
    case ByControl(c) =>
      hide ControlEnabled;
      SessionProperties.ControlAnswers(acc, s, c);
      if c.Join? { JoinAnswers(s, c.op, c.h); }
      hide ControlNext;
  }

  lemma JoinAnswers(s: Slot, o: OpId, h: Handle)
    requires o in s.ops
    ensures DoJoin(s, o, h).answers.Keys <= s.answers.Keys + {o}
  {
    hide Return; hide Drop;
  }

  lemma OthersOps(acc: bool, s: Slot, a: Action, op: OpId)
    requires Enabled(acc, s, a) && Owner(a) != Some(op)
    ensures var s' := Next(acc, s, a); (op in s'.ops <==> op in s.ops) && (op in s.ops ==> s'.ops[op] == s.ops[op])
  {
    if Begins(a) {
      BeginOther(acc, s, a, op);
    } else if Counts(a) {
      CountOther(acc, s, a.control, op);
    } else if a.ByListener? || (a.ByControl? && a.control.Prune?) {
      QuietOps(acc, s, a);
    } else {
      hide Next; hide Enabled;
      ActionMoves(acc, s, a);
    }
  }

  lemma BeginOther(acc: bool, s: Slot, a: Action, op: OpId)
    requires Enabled(acc, s, a) && Begins(a) && Owner(a) != Some(op)
    ensures var s' := Next(acc, s, a); (op in s'.ops <==> op in s.ops) && (op in s.ops ==> s'.ops[op] == s.ops[op])
  {
    DaemonProofs.BeginShape(acc, s, a);
    hide Next; hide Enabled;
  }

  lemma CountOther(acc: bool, s: Slot, c: Control, op: OpId)
    requires ControlEnabled(acc, s, c) && Counts(ByControl(c)) && c.op != op
    ensures var s' := ControlNext(acc, s, c); (op in s'.ops <==> op in s.ops) && (op in s.ops ==> s'.ops[op] == s.ops[op])
  {
    hide Return; hide DoPublish; hide DoErase;
    match c
    case Publish(o) => PublishOps(acc, s, o);
    case Erase(o) => EraseOps(s, o);
    case _ =>
  }

  lemma PublishOps(acc: bool, s: Slot, o: OpId)
    requires o in s.ops && s.ops[o].Publishing? && s.ops[o].first < |s.runtimes|
    ensures DoPublish(acc, s, o).ops == s.ops - {o}
  {
    hide Return; hide MoveTo;
  }

  lemma EraseOps(s: Slot, o: OpId)
    requires EndingAt(s, o)
    ensures DoErase(s, o).ops == s.ops - {o} || DoErase(s, o).ops == s.ops[o := Ending(s.ops[o].kind, Counting)]
  {
    hide Return;
  }

  lemma QuietOps(acc: bool, s: Slot, a: Action)
    requires Enabled(acc, s, a) && (a.ByListener? || (a.ByControl? && a.control.Prune?))
    ensures Next(acc, s, a).ops == s.ops
  {
    if a.ByListener? { hide ListenerNext; hide ListenerEnabled; } else { PrunedMoves(s); hide Pruned; }
  }

  lemma OthersKeep(acc: bool, s: Slot, a: Action, op: OpId)
    requires Enabled(acc, s, a) && Owner(a) != Some(op)
    ensures Alone(s, Next(acc, s, a), op)
  {
    hide Next; hide Enabled; hide Owner;
    OthersOps(acc, s, a, op);
    if op !in s.answers { OthersAnswers(acc, s, a, op); }
  }

  /** While a cutover holds the registry lock nobody else touches the entry. */
  lemma EntryHeld(acc: bool, limit: nat, s: Slot, a: Action, op: OpId)
    requires Inv(acc, limit, s) && Enabled(acc, s, a) && Owner(a) != Some(op) && op in s.ops && MidCutover(s.ops[op])
    ensures Next(acc, s, a).entry == s.entry
  {
    LockIsHeld(acc, limit, s, op);
    if !IsSeen(a) {
      hide Next; hide Enabled; hide Inv; hide Numbers; hide FinishedListeners; hide CountingOps;
      Unseen(acc, s, a);
    } else {
      match a
      case ByControl(c) => hide Inv; hide Drop;
      case ByReload(r) =>
        if r.StoreGate? || r.Retire? { LockIsHeld(acc, limit, s, r.op); }
        hide Inv; hide Reply;
      case ByListener(l) => hide Inv; hide ListenerNext;
    }
  }

  lemma LockIsHeld(acc: bool, limit: nat, s: Slot, op: OpId)
    requires Inv(acc, limit, s) && op in s.ops && HoldsLock(s.ops[op])
    ensures s.lock == Some(op) && (MidCutover(s.ops[op]) ==> RegistryHeld(s))
  {
    hide RuntimeOk; hide EntryOk; hide GateOk; hide ConnOk; hide EventOk;
    assert OpOk(s, op);
  }

  lemma OthersTrack(acc: bool, limit: nat, s: Slot, a: Action, op: OpId, c: Candidate)
    requires Inv(acc, limit, s) && Enabled(acc, s, a) && Owner(a) != Some(op) && op !in s.answers && Tracked(acc, s, op, c)
    ensures Tracked(acc, Next(acc, s, a), op, c)
  {
    hide Inv; hide Next; hide Enabled; hide Owner; hide Holds;
    OthersKeep(acc, s, a, op);
    if op in s.ops && MidCutover(s.ops[op]) { EntryHeld(acc, limit, s, a, op); }
  }

  // ----- the reload's own steps -----

  /** A step of the reload itself: it goes on with its candidate, answers, or is cancelled. */
  lemma OwnTrack(acc: bool, limit: nat, s: Slot, a: Action, op: OpId, c: Candidate)
    requires Inv(acc, limit, s) && Enabled(acc, s, a) && Owner(a) == Some(op) && op !in s.answers && Carries(s, op, c)
    ensures Tracked(acc, Next(acc, s, a), op, c)
  {
    match a
    case ByControl(k) => hide Inv; hide ControlNext; OwnControl(acc, s, k, c);
    case ByReload(r) => hide Inv; hide ReloadNext; hide Carries; hide Tracked; OwnReload(acc, limit, s, r, c);
  }

  lemma OwnControl(acc: bool, s: Slot, k: Control, c: Candidate)
    requires ControlEnabled(acc, s, k) && !k.Prune? && k.op !in s.answers && Carries(s, k.op, c)
    ensures Tracked(acc, ControlNext(acc, s, k), k.op, c)
  {
    hide Drop; hide Holds; hide Effective.SameConfiguration;
  }

  lemma OwnReload(acc: bool, limit: nat, s: Slot, r: Reload, c: Candidate)
    requires Inv(acc, limit, s) && ReloadEnabled(s, r) && r.op !in s.answers && Carries(s, r.op, c)
    ensures Tracked(acc, ReloadNext(acc, s, r), r.op, c)
  {
    hide Inv; hide DoCompare; hide DoSelect; hide DoPlan; hide DoStartReplacement; hide DoCutOver; hide DoStoreGate; hide DoRetire;
    hide Tracked; hide Effective.SameConfiguration;
    match r
    case Compare(op) => CompareTracks(acc, limit, s, op, c);
    case Select(op) => SelectTracks(acc, limit, s, op, c);
    case Plan(op) => PlanTracks(acc, s, op, c);
    case StartReplacement(op, ok) => StartTracks(acc, s, op, ok, c);
    case CutOver(op) => CutTracks(acc, s, op, c);
    case StoreGate(op) => GateTracks(acc, s, op, c);
    case Retire(op) => RetireTracks(acc, limit, s, op, c);
    case _ => assert false;
  }

  lemma CompareTracks(acc: bool, limit: nat, s: Slot, op: OpId, c: Candidate)
    requires Inv(acc, limit, s) && ReloadEnabled(s, Compare(op)) && op !in s.answers && Carries(s, op, c)
    ensures Tracked(acc, DoCompare(s, op), op, c)
  {
    hide Inv; hide Return; hide Effective.SameConfiguration; hide Holds;
    var s' := DoCompare(s, op);
    if op in s'.answers && s'.answers[op] == Unchanged { ReloadTheorems.UnchangedCompare(acc, limit, s, op); }
  }

  lemma SelectTracks(acc: bool, limit: nat, s: Slot, op: OpId, c: Candidate)
    requires Inv(acc, limit, s) && ReloadEnabled(s, Select(op)) && op !in s.answers && Carries(s, op, c)
    ensures Tracked(acc, DoSelect(acc, s, op), op, c)
  {
    hide Inv; hide Effective.SameConfiguration;
    var s' := DoSelect(acc, s, op);
    SelectEntry(acc, s, op);
    SelectAnswers(acc, s, op);
    if s'.answers[op] == Reloaded {
      ReloadTheorems.SelectInstalls(acc, limit, s, op);
      CurrentIsRunning(acc, limit, s);
    }
    hide DoSelect;
  }

  lemma SelectAnswers(acc: bool, s: Slot, op: OpId)
    requires ReloadEnabled(s, Select(op))
    ensures var s' := DoSelect(acc, s, op);
            op in s'.answers && s'.answers[op] != Unchanged && (s'.answers[op] == Reloaded ==> s.entry.Some? && s.entry.value.current.Some?)
  {
    hide Return; hide KeepLive; hide Reselect;
  }

  lemma CurrentIsRunning(acc: bool, limit: nat, s: Slot)
    requires Inv(acc, limit, s) && s.entry.Some? && s.entry.value.current.Some?
    ensures s.entry.value.lifecycle == Running
  {
    hide RuntimeOk; hide OpOk; hide GateOk; hide ConnOk; hide EventOk;
  }

  lemma PlanTracks(acc: bool, s: Slot, op: OpId, c: Candidate)
    requires ReloadEnabled(s, Plan(op)) && op !in s.answers && Carries(s, op, c)
    ensures Tracked(acc, DoPlan(acc, s, op), op, c)
  {
    hide Pruned; hide Reply; hide Holds; hide Effective.SameConfiguration;
    if s.entry.Some? { SessionProperties.PrunedUntouched(s); }
  }

  lemma StartTracks(acc: bool, s: Slot, op: OpId, ok: bool, c: Candidate)
    requires ReloadEnabled(s, StartReplacement(op, ok)) && op !in s.answers && Carries(s, op, c)
    ensures Tracked(acc, DoStartReplacement(s, op, ok), op, c)
  {
    hide Reply; hide Holds; hide Effective.SameConfiguration;
  }

  lemma CutTracks(acc: bool, s: Slot, op: OpId, c: Candidate)
    requires ReloadEnabled(s, CutOver(op)) && op !in s.answers && Carries(s, op, c)
    ensures Tracked(acc, DoCutOver(acc, s, op), op, c)
  {
    hide Reply; hide Install; hide Effective.SameConfiguration; hide Holds;
    if acc && s.entry.Some? && s.entry.value.current.Some? { InstallHolds(s, op, s.entry.value.current.value, c); }
  }

  lemma InstallHolds(s: Slot, op: OpId, prior: Handle, c: Candidate)
    requires ReloadingAt(s, op) && s.ops[op].reload.CuttingOver? && s.ops[op].reload.candidate == c
    requires s.entry.Some? && prior < |s.runtimes|
    ensures var t := Install(s, op, prior);
            t.entry.Some? && Holds(t.entry.value, c) && op in t.ops && t.ops[op] == Reloading(StoringGate(prior)) && t.answers == s.answers
  {
    hide MoveTo;
  }

  lemma GateTracks(acc: bool, s: Slot, op: OpId, c: Candidate)
    requires ReloadEnabled(s, StoreGate(op)) && op !in s.answers && Carries(s, op, c)
    ensures Tracked(acc, DoStoreGate(s, op), op, c)
  {
    hide Holds; hide Effective.SameConfiguration;
  }

  lemma RetireTracks(acc: bool, limit: nat, s: Slot, op: OpId, c: Candidate)
    requires Inv(acc, limit, s) && ReloadEnabled(s, Reload.Retire(op)) && op !in s.answers && Carries(s, op, c)
    ensures Tracked(acc, DoRetire(s, op), op, c)
  {
    assert IsRunning(s) by {
      hide RuntimeOk; hide EntryOk; hide GateOk; hide ConnOk; hide EventOk;
      assert OpOk(s, op);
    }
    hide Inv; hide Effective.SameConfiguration;
  }

  /** After a cancellation, an operation under the same name can only fail. */
  lemma LostTrack(acc: bool, s: Slot, a: Action, op: OpId, c: Candidate)
    requires Enabled(acc, s, a) && Owner(a) == Some(op) && op !in s.answers && Lost(acc, s, op)
    ensures Tracked(acc, Next(acc, s, a), op, c)
  {
    match a
    case ByControl(k) => hide ControlNext; LostControl(acc, s, k, c);
    case ByReload(r) => hide ReloadNext; LostReload(acc, s, r, c);
  }

  lemma LostControl(acc: bool, s: Slot, k: Control, c: Candidate)
    requires ControlEnabled(acc, s, k) && !k.Prune? && k.op !in s.answers && Lost(acc, s, k.op)
    ensures Tracked(acc, ControlNext(acc, s, k), k.op, c)
  {
    hide Drop; hide MoveTo; hide Holds; hide Effective.SameConfiguration; hide DropNamed; hide AllListeners; hide Ended; hide AlreadyEnding;
  }

  lemma LostReload(acc: bool, s: Slot, r: Reload, c: Candidate)
    requires ReloadEnabled(s, r) && r.op !in s.answers && Lost(acc, s, r.op)
    ensures Tracked(acc, ReloadNext(acc, s, r), r.op, c)
  {
    hide Reply; hide Pruned; hide Holds; hide Effective.SameConfiguration;
    if r.Prepare? && s.entry.Some? { SessionProperties.PrunedUntouched(s); }
  }

  lemma ActTrack(acc: bool, limit: nat, s: Slot, a: Action, op: OpId, c: Candidate)
    requires Inv(acc, limit, s) && Enabled(acc, s, a) && op !in s.answers && Tracked(acc, s, op, c)
    ensures Tracked(acc, Next(acc, s, a), op, c)
  {
    hide Inv; hide Next; hide Enabled; hide Carries; hide Lost; hide Owner;
    if Owner(a) != Some(op) { OthersTrack(acc, limit, s, a, op, c); }
    else if Carries(s, op, c) { OwnTrack(acc, limit, s, a, op, c); }
    else { LostTrack(acc, s, a, op, c); }
  }

  // ----- runs -----

  lemma StepTrack(limit: nat, st: State, step: Step, op: OpId, c: Candidate)
    requires Inv(st.accepting, limit, st.slot) && CanStep(st, step) && op !in st.slot.answers
    requires Tracked(st.accepting, st.slot, op, c)
    ensures Tracked(After(st, step).accepting, After(st, step).slot, op, c)
  {
    hide Inv; hide Enabled; hide Next; hide Holds; hide Effective.SameConfiguration;
    if step.Act? {
      hide Tracked;
      ActTrack(st.accepting, limit, st.slot, step.action, op, c);
    }
  }

  lemma ReadTracks(limit: nat, st: State, op: OpId, file: Candidate)
    requires Inv(st.accepting, limit, st.slot) && CanStep(st, Act(ByReload(Read(op, Some(file))))) && op !in st.slot.answers
    ensures var after := After(st, Act(ByReload(Read(op, Some(file)))));
            Carries(after.slot, op, Filed(file, st.slot.persistent)) && op !in after.slot.answers
  {
    hide Inv; hide Holds; hide Enabled; hide Next;
    NextReload(st.accepting, st.slot, Read(op, Some(file)));
    ReadPersistence(st.accepting, limit, st.slot, op);
  }

  lemma NextReload(acc: bool, s: Slot, r: Reload)
    requires Enabled(acc, s, ByReload(r))
    ensures ReloadEnabled(s, r) && Next(acc, s, ByReload(r)) == ReloadNext(acc, s, r)
  {
    hide ReloadNext; hide ReloadEnabled;
  }

  lemma ReadPersistence(acc: bool, limit: nat, s: Slot, op: OpId)
    requires Inv(acc, limit, s) && ReloadingAt(s, op) && s.ops[op].reload.Reading?
    ensures s.ops[op].reload.got.persistent == s.persistent
  {
    hide RuntimeOk; hide EntryOk; hide GateOk; hide ConnOk; hide EventOk;
    assert OpOk(s, op);
  }

  lemma {:induction false} RunTracks(limit: nat, states: seq<State>, steps: seq<Step>, i: nat, j: nat, op: OpId, file: Candidate)
    requires IsRun(limit, states, steps) && i < j < |states| && steps[i] == Act(ByReload(Read(op, Some(file))))
    requires forall k :: i <= k < j ==> op !in states[k].slot.answers
    ensures Tracked(states[j].accepting, states[j].slot, op, Filed(file, states[i].slot.persistent))
    decreases j
  {
    hide Inv; hide CanStep; hide After; hide IsStart; hide Tracked; hide Filed;
    RunKeeps(limit, states, steps, j - 1);
    assert CanStep(states[j - 1], steps[j - 1]) && states[j - 1 + 1] == After(states[j - 1], steps[j - 1]);
    if j == i + 1 {
      ReadTracks(limit, states[i], op, file);
      CarriesIsTracked(states[j].accepting, states[j].slot, op, Filed(file, states[i].slot.persistent));
    } else {
      RunTracks(limit, states, steps, i, j - 1, op, file);
      StepTrack(limit, states[j - 1], steps[j - 1], op, Filed(file, states[i].slot.persistent));
    }
  }

  lemma CarriesIsTracked(acc: bool, s: Slot, op: OpId, c: Candidate)
    requires Carries(s, op, c) && op !in s.answers
    ensures Tracked(acc, s, op, c)
  {
  }

  /**
   A reload that reads `file` and answers that it reloaded has installed exactly this file, on either socket: the entry
   holds its configuration, secrets and path, with the session's own lifetime, and the current listener has selected a
   generation compiled from it. If it answers unchanged, the session has the file's secrets and path and an equal
   configuration.
   */
  lemma ReloadInstallsFile(limit: nat, states: seq<State>, steps: seq<Step>, i: nat, j: nat, op: OpId, file: Candidate)
    requires IsRun(limit, states, steps) && i < j < |states| && steps[i] == Act(ByReload(Read(op, Some(file))))
    requires (forall k :: i <= k < j ==> op !in states[k].slot.answers) && op in states[j].slot.answers
    ensures var s := states[j].slot;
            var config := file.config.(persistent := s.persistent);
            && (s.answers[op] == Reloaded ==>
                  && s.entry.Some? && s.entry.value.lifecycle == Running && s.entry.value.config == config
                  && s.entry.value.secrets == file.secrets && s.entry.value.socket == file.path
                  && s.entry.value.current.Some?
                  && var h := s.entry.value.current.value;
                     && h < |s.runtimes| && s.runtimes[h].socket == file.path && s.runtimes[h].gens != []
                     && s.runtimes[h].gens[|s.runtimes[h].gens| - 1] == Generation(config, file.secrets, s.seed))
            && (s.answers[op] == Unchanged ==>
                  && s.entry.Some? && Effective.SameConfiguration(config, s.entry.value.config)
                  && s.entry.value.secrets == file.secrets && s.entry.value.socket == file.path)
  {
    var s := states[j].slot;
    assert s.persistent == states[i].slot.persistent by {
      hide Inv; hide CanStep; hide After; hide IsStart;
      RunKept(limit, states, steps, i, j);
    }
    hide CanStep; hide After; hide IsStart; hide Effective.SameConfiguration;
    RunTracks(limit, states, steps, i, j, op, file);
    RunKeeps(limit, states, steps, j);
    hide IsRun;
    if s.answers[op] == Reloaded { RunningServes(states[j].accepting, limit, s); }
    hide Inv;
  }

  lemma RunningServes(acc: bool, limit: nat, s: Slot)
    requires Inv(acc, limit, s) && s.entry.Some? && s.entry.value.lifecycle == Running
    ensures s.entry.value.current.Some? && CurrentOk(s, s.entry.value, s.entry.value.current.value)
  {
    hide RuntimeOk; hide OpOk; hide GateOk; hide ConnOk; hide EventOk;
  }
}
