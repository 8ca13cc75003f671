/**
 Whole runs of one session, from its reservation to the end of the daemon (src/control/session.rs:76-366,
 src/control/server.rs:281-289). Sessions meet only in the registry lock and in `accepting_sessions`; a turn of another
 session leaves this one alone. `DaemonTheorems.Projects` shows that every run of the daemon is such a run for each session.
 */
module SessionRuns {
  import opened Basics
  import opened Config
  import opened Slots
  import opened SlotInvariants
  import opened SlotTurns
  import SlotTheorems
  import SlotProgress
  import SessionProperties

  /** `accepting` is the registry's flag. */
  datatype State = State(accepting: bool, slot: Slot)

  /**
   An action, reject_new_sessions, `provisioning.clear()`, the last section of shutdown_all, once `op` has shut down
   what it took, or something that concerns other sessions only.
   */
  datatype Step = Act(action: Action) | RejectNew | ForgetReservation | ClearRegistry(op: OpId) | Elsewhere

  function NewSlot(limit: nat, op: OpId, config: SessionConfig, secrets: Secrets, source: Option<string>, seed: Seed): Slot {
    Slot(op, None, true, false, 1, seed, config.persistent, limit, None,
         map[op := StartingFirst(config, secrets, source)], map[], [], [], map[], multiset{})
  }

  /** No operation is in flight but a finished visit of shutdown_all. */
  predicate IsSwept(s: Slot, op: OpId) {
    if op in s.ops then s.ops.Keys == {op} && s.ops[op] == Ending(Sweep, Shutting({})) else s.ops == map[] && s.entry.None?
  }

  predicate CanStep(st: State, step: Step) {
    match step
    case Act(a) => Enabled(st.accepting, st.slot, a)
    case RejectNew => !RegistryHeld(st.slot)
    case ForgetReservation => !st.accepting && st.slot.ops == map[]
    case ClearRegistry(op) => !st.accepting && IsSwept(st.slot, op)
    case Elsewhere => true
  }

  function Cleared(s: Slot): Slot { s.(entry := None, ops := map[], lock := None) }

  function After(st: State, step: Step): State {
    match step
    case Act(a) => st.(slot := Next(st.accepting, st.slot, a))
    case RejectNew => st.(accepting := false)
    case ForgetReservation => st.(slot := st.slot.(reserved := false))
    case ClearRegistry(_) => st.(slot := Cleared(st.slot))
    case Elsewhere => st
  }

  ghost predicate IsStart(st: State, limit: nat) {
    st.accepting && exists op, config, secrets, source, seed :: st.slot == NewSlot(limit, op, config, secrets, source, seed)
  }

  /** A run: states joined by steps, from a reservation on. */
  ghost predicate IsRun(limit: nat, states: seq<State>, steps: seq<Step>) {
    && |states| == |steps| + 1 && IsStart(states[0], limit)
    && forall i :: 0 <= i < |steps| ==> CanStep(states[i], steps[i]) && states[i + 1] == After(states[i], steps[i])
  }

  lemma StartOk(limit: nat, st: State)
    requires IsStart(st, limit)
    ensures Inv(true, limit, st.slot)
  {
    var s := st.slot;
    forall o: nat ensures OpOk(s, o) {}
    forall i: nat ensures CommittedOk(s, i) {}
    forall h: nat ensures RuntimeOk(true, s, h) {}
    forall c: nat ensures ConnOk(s, c) {}
  }

  // ----- the end of shutdown_all -----

  lemma SweptFacts(s: Slot, op: OpId)
    requires IsSwept(s, op) && GateOk(s) && EntryOk(s) && OpOk(s, op)
    ensures !RegistryHeld(s) && !IsRunning(s) && forall o :: o in s.ops ==> Owned(s.ops[o]) == {}
  {
  }

  lemma ClearedRuntime(s: Slot, h: Handle)
    requires RuntimeOk(false, s, h) && EntryOk(s) && !IsRunning(s) && (forall op :: op in s.ops ==> Owned(s.ops[op]) == {})
    ensures RuntimeOk(false, Cleared(s), h)
  {
    hide PoliciesOk;
  }

  lemma ClearedRest(s: Slot)
    requires GateOk(s) && !RegistryHeld(s)
    ensures var s' := Cleared(s);
            && GateOk(s') && EntryOk(s') && (forall o: nat :: OpOk(s', o)) && (forall e :: EventOk(s, e) ==> EventOk(s', e))
            && (forall c: nat :: ConnOk(s, c) ==> ConnOk(s', c))
  {
    forall i: nat ensures CommittedOk(Cleared(s), i) { assert CommittedOk(s, i); }
  }

  lemma ClearKeeps(limit: nat, s: Slot, op: OpId)
    requires Inv(false, limit, s) && IsSwept(s, op)
    ensures Inv(false, limit, Cleared(s))
  {
    var s' := Cleared(s);
    assert s'.events == s.events && s'.conns == s.conns && s'.permits == s.permits;
    hide *;
    InvParts(false, limit, s);
    SweptFacts(s, op);
    ClearedRest(s);
    forall h: nat ensures RuntimeOk(false, s', h) { ClearedRuntime(s, h); }
    InvFrom(false, limit, s');
  }

  lemma ForgetKeeps(acc: bool, limit: nat, s: Slot)
    requires Inv(acc, limit, s) && s.ops == map[]
    ensures Inv(acc, limit, s.(reserved := false))
  {
    var s' := s.(reserved := false);
    assert s'.events == s.events && s'.conns == s.conns && s'.permits == s.permits;
    hide *;
    InvParts(acc, limit, s);
    ForgetParts(acc, s);
    InvFrom(acc, limit, s');
  }

  lemma ForgetParts(acc: bool, s: Slot)
    requires s.ops == map[]
    ensures var s' := s.(reserved := false);
            && (GateOk(s) ==> GateOk(s')) && (EntryOk(s) ==> EntryOk(s')) && (forall o: nat :: OpOk(s', o))
            && (forall h: nat :: RuntimeOk(acc, s, h) ==> RuntimeOk(acc, s', h))
            && (forall e :: EventOk(s, e) ==> EventOk(s', e)) && (forall c: nat :: ConnOk(s, c) ==> ConnOk(s', c))
  {
    var s' := s.(reserved := false);
    if GateOk(s) { forall i: nat ensures CommittedOk(s', i) { assert CommittedOk(s, i); } }
    if EntryOk(s) && s.entry.Some? { forall h | h in s.entry.value.retired ensures RetiredOk(s', h) { assert RetiredOk(s, h); } }
  }

  // ----- safety of every run -----

  /** Every step keeps the invariant. */
  lemma StepKeeps(limit: nat, st: State, step: Step)
    requires Inv(st.accepting, limit, st.slot) && CanStep(st, step)
    ensures Inv(After(st, step).accepting, limit, After(st, step).slot)
  {
    hide Inv; hide Enabled; hide Next; hide IsSwept; hide Cleared;
    match step
    case Act(a) => SlotTheorems.Keeps(st.accepting, limit, st.slot, a);
    case RejectNew => if st.accepting { SlotTheorems.RejectKeeps(limit, st.slot); }
    case ForgetReservation => ForgetKeeps(st.accepting, limit, st.slot);
    case ClearRegistry(op) => ClearKeeps(limit, st.slot, op);
    case Elsewhere =>
  }

  /** In every state of every run the session satisfies its invariant. */
  lemma {:induction false} RunKeeps(limit: nat, states: seq<State>, steps: seq<Step>, i: nat)
    requires IsRun(limit, states, steps) && i < |states|
    ensures Inv(states[i].accepting, limit, states[i].slot)
  {
    hide Inv; hide CanStep; hide After;
    if i == 0 {
      StartOk(limit, states[0]);
    } else {
      RunKeeps(limit, states, steps, i - 1);
      StepKeeps(limit, states[i - 1], steps[i - 1]);
    }
  }

  /** Listeners are never forgotten; gate, committed numbers and policy histories only grow; the seed stays. */
  ghost predicate Kept(s: Slot, s': Slot) {
    && s'.seed == s.seed && s'.persistent == s.persistent && s.gate <= s'.gate && s.committed <= s'.committed
    && |s.runtimes| <= |s'.runtimes|
    && (forall h :: 0 <= h < |s.runtimes| ==> SlotProgress.Onward(s.runtimes[h], s'.runtimes[h]))
  }

  lemma KeptTransitive(s: Slot, s1: Slot, s2: Slot)
    requires Kept(s, s1) && Kept(s1, s2)
    ensures Kept(s, s2)
  {
    forall h | 0 <= h < |s.runtimes| ensures SlotProgress.Onward(s.runtimes[h], s2.runtimes[h]) {
      assert SlotProgress.Onward(s.runtimes[h], s1.runtimes[h]) && SlotProgress.Onward(s1.runtimes[h], s2.runtimes[h]);
    }
  }

  lemma StepKept(limit: nat, st: State, step: Step)
    requires Inv(st.accepting, limit, st.slot) && CanStep(st, step)
    ensures Kept(st.slot, After(st, step).slot)
  {
    hide Inv; hide Enabled; hide Next;
    if step.Act? { SlotProgress.Advances(st.accepting, limit, st.slot, step.action); }
  }

  lemma {:induction false} RunKept(limit: nat, states: seq<State>, steps: seq<Step>, i: nat, j: nat)
    requires IsRun(limit, states, steps) && i <= j < |states|
    ensures Kept(states[i].slot, states[j].slot)
    decreases j
  {
    hide Inv; hide CanStep; hide After; hide IsStart;
    if i < j {
      RunKept(limit, states, steps, i, j - 1);
      RunKeeps(limit, states, steps, j - 1);
      StepKept(limit, states[j - 1], steps[j - 1]);
      KeptTransitive(states[i].slot, states[j - 1].slot, states[j].slot);
    }
  }

  /** Once the gate has moved past a listener, no later admission check of that listener succeeds. */
  lemma NoAdmissionAfterCutover(limit: nat, states: seq<State>, steps: seq<Step>, i: nat, j: nat, h: Handle)
    requires IsRun(limit, states, steps) && i <= j < |steps| && h < |states[i].slot.runtimes|
    requires states[i].slot.runtimes[h].generation < states[i].slot.gate && steps[j] == Act(ByListener(AcceptGate(h)))
    ensures h < |states[j + 1].slot.runtimes| && states[j + 1].slot.runtimes[h].accept == Idle
  {
    RunKept(limit, states, steps, i, j);
    hide IsStart;
    assert SlotProgress.Onward(states[i].slot.runtimes[h], states[j].slot.runtimes[h]);
    assert states[j + 1] == After(states[j], steps[j]);
  }

  /** Once a session is gone and no operation is left, every listener it ever started was told to stop. */
  lemma GoneLeavesNoListener(limit: nat, states: seq<State>, steps: seq<Step>, i: nat, h: Handle)
    requires IsRun(limit, states, steps) && i < |states| && h < |states[i].slot.runtimes|
    requires states[i].slot.entry.None? && states[i].slot.ops == map[]
    ensures states[i].slot.runtimes[h].cancelled && states[i].slot.runtimes[h].aborted
    ensures states[i].accepting ==> HasExited(states[i].slot.runtimes[h])
  {
    hide Inv; hide CanStep; hide After; hide IsStart;
    RunKeeps(limit, states, steps, i);
    SessionProperties.RemovedLeavesNoListener(states[i].accepting, limit, states[i].slot, h);
  }

  /** Two listeners that were current at any two moments of a run never share a number. */
  lemma NumbersNotReused(limit: nat, states: seq<State>, steps: seq<Step>, i: nat, j: nat, h: Handle, h': Handle)
    requires IsRun(limit, states, steps) && i <= j < |states|
    requires SessionProperties.Owns(states[i].slot, SessionProperties.TheCurrent, h) && h < |states[i].slot.runtimes|
    requires SessionProperties.Owns(states[j].slot, SessionProperties.TheCurrent, h') && h' < |states[j].slot.runtimes|
    requires states[i].slot.runtimes[h].generation == states[j].slot.runtimes[h'].generation
    ensures h == h'
  {
    var s, s' := states[i].slot, states[j].slot;
    hide Inv; hide CanStep; hide After; hide IsStart;
    RunKeeps(limit, states, steps, i);
    RunKeeps(limit, states, steps, j);
    RunKept(limit, states, steps, i, j);
    SessionProperties.CurrentIsLast(states[i].accepting, limit, s, h);
    SessionProperties.CurrentIsLast(states[j].accepting, limit, s', h');
  }

  /** A connection that stays open keeps its listener and one (policy, secrets) pair of it for life. */
  lemma {:induction false} ConnectionForLife(limit: nat, states: seq<State>, steps: seq<Step>, i: nat, j: nat, c: ConnId)
    requires IsRun(limit, states, steps) && i <= j < |states|
    requires forall k :: i <= k <= j ==> c in states[k].slot.conns
    ensures states[j].slot.conns[c] == states[i].slot.conns[c]
    ensures var conn := states[i].slot.conns[c];
            && conn.runtime < |states[i].slot.runtimes| && conn.gen < |states[i].slot.runtimes[conn.runtime].gens|
            && conn.runtime < |states[j].slot.runtimes| && conn.gen < |states[j].slot.runtimes[conn.runtime].gens|
            && states[j].slot.runtimes[conn.runtime].gens[conn.gen] == states[i].slot.runtimes[conn.runtime].gens[conn.gen]
    decreases j
  {
    hide Inv; hide CanStep; hide After; hide IsStart;
    RunKeeps(limit, states, steps, i);
    SessionProperties.PinnedExists(states[i].accepting, limit, states[i].slot, c);
    if i < j {
      ConnectionForLife(limit, states, steps, i, j - 1, c);
      RunKeeps(limit, states, steps, j - 1);
      assert c in states[j - 1].slot.conns && c in states[j].slot.conns;
      assert states[j - 1 + 1] == After(states[j - 1], steps[j - 1]);
      StepConnection(limit, states[j - 1], steps[j - 1], c);
      StepKept(limit, states[j - 1], steps[j - 1]);
      var h := states[i].slot.conns[c].runtime;
      assert SlotProgress.Onward(states[j - 1].slot.runtimes[h], states[j].slot.runtimes[h]);
    }
  }

  lemma StepConnection(limit: nat, st: State, step: Step, c: ConnId)
    requires Inv(st.accepting, limit, st.slot) && CanStep(st, step)
    requires c in st.slot.conns && c in After(st, step).slot.conns
    ensures After(st, step).slot.conns[c] == st.slot.conns[c]
  {
    hide Inv; hide Enabled; hide Next;
    if step.Act? { SlotProgress.Advances(st.accepting, limit, st.slot, step.action); }
  }
}
