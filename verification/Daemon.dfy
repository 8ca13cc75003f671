/**
 The daemon: every session slot, the registry lock, the active-session gauge and the ordered shutdown of
 src/control/server.rs:281-289.
 */
module Daemon {
  import opened Basics
  import opened Config
  import opened Slots
  import opened SlotInvariants
  import opened SlotEffects
  import Runs = SessionRuns

  /**
   `Rejecting` has closed the control listener, `Rejected` has stopped accepting sessions and aborts the control
   connections, `Joined` has seen them end, `Quiet` has seen the exit handlers end. `Sweeping` is shutdown_all:
   the ids still to visit and `session_count`. `Settling` decrements the gauge once per counted session.
   */
  datatype Phase =
    | Serving | Rejecting | Rejected | Joined | Quiet
    | Sweeping(pending: set<SessionId>, count: nat)
    | Settling(left: nat)
    | Down

  datatype Daemon = Daemon(
    maxSessions: nat, maxConnections: nat, phase: Phase, accepting: bool, gauge: int, slots: map<SessionId, Slot>)

  datatype Turn =
    | Reserve(id: SessionId, op: OpId, config: SessionConfig, secrets: Secrets, source: Option<string>, seed: Seed)
    | Act(id: SessionId, action: Action)
    | CloseListener
    | RejectNew
    | JoinConnections
    | JoinCleanups
    | BeginSweep
    | Visit(id: SessionId)
    | ClearRegistry
    | StopOne
    | Terminate

  function Init(maxSessions: nat, maxConnections: nat): Daemon {
    Daemon(maxSessions, maxConnections, Serving, true, 0, map[])
  }

  ghost function Sessions(d: Daemon): set<SessionId> { set id | id in d.slots && d.slots[id].entry.Some? }

  ghost function Provisioning(d: Daemon): set<SessionId> { set id | id in d.slots && d.slots[id].reserved }

  /** Sessions that the gauge still counts. */
  predicate Active(s: Slot) { s.entry.Some? || Owing(s) }

  ghost function ActiveSessions(d: Daemon): set<SessionId> { set id | id in d.slots && Active(d.slots[id]) }

  ghost predicate RegistryFree(d: Daemon) { forall id :: id in d.slots ==> !RegistryHeld(d.slots[id]) }

  predicate IsSweepTaken(s: Slot) { SWEEPER in s.ops && s.ops[SWEEPER].Ending? && s.ops[SWEEPER].end.Shutting? }

  /** Which slot actions the daemon's phase allows. */
  predicate Allowed(phase: Phase, a: Action) {
    match a
    case ByControl(c) =>
      && (c.BeginEnd? ==> !c.kind.Sweep? && (phase.Serving? || phase.Rejecting? || phase.Rejected?))
      && (c.Deliver? ==> phase.Serving?)
      && (c.Cancel? ==> phase.Rejected?)
    case ByReload(r) => r.BeginReload? ==> phase.Serving? || phase.Rejecting? || phase.Rejected?
    case ByListener(_) => true
  }

  ghost predicate CanStep(d: Daemon, st: Turn) {
    match st
    case Reserve(id, op, config, secrets, source, seed) =>
      && (d.phase.Serving? || d.phase.Rejecting? || d.phase.Rejected?) && RegistryFree(d)
      // ids are 128 random bits: an id that is not registered was never used before
      && (id in d.slots ==> id in Sessions(d) || id in Provisioning(d))
    case Act(id, a) =>
      id in d.slots && Enabled(d.accepting, d.slots[id], a) && Allowed(d.phase, a) && (IsRegistry(a) ==> RegistryFree(d))
    case CloseListener => d.phase.Serving?
    case RejectNew => d.phase.Rejecting? && RegistryFree(d)
    case JoinConnections =>
      d.phase.Rejected? && forall id :: id in d.slots ==> forall op :: op in d.slots[id].ops ==> IsCleanup(d.slots[id].ops[op])
    case JoinCleanups => d.phase.Joined? && forall id :: id in d.slots ==> d.slots[id].ops == map[]
    case BeginSweep => d.phase.Quiet? && RegistryFree(d)
    case Visit(id) => d.phase.Sweeping? && id in d.phase.pending && id in d.slots
    case ClearRegistry =>
      && d.phase.Sweeping? && d.phase.pending == {} && RegistryFree(d)
      && forall id :: id in d.slots ==> ReadyToClear(d.slots[id])
    case StopOne => d.phase.Settling? && d.phase.left > 0
    case Terminate => d.phase.Settling? && d.phase.left == 0
  }

  /** Gauge change of a slot action: publication counts up, a removal counts down after its erasure. */
  function GaugeChange(accepting: bool, a: Action): int {
    if a.ByControl? && a.control.Publish? && accepting then 1
    else if a.ByControl? && a.control.Count? then -1
    else 0
  }

  function Charged(phase: Phase, s: Slot, s': Slot): Phase {
    if phase.Sweeping? && IsSweepTaken(s') && !IsSweepTaken(s) then phase.(count := phase.count + 1) else phase
  }

  function DoAct(d: Daemon, id: SessionId, a: Action): Daemon
    requires id in d.slots
  {
    var s' := Next(d.accepting, d.slots[id], a);
    d.(slots := d.slots[id := s'], gauge := d.gauge + GaugeChange(d.accepting, a), phase := Charged(d.phase, d.slots[id], s'))
  }

  /** First section of shutdown_all: forget reservations, note the registered sessions. */
  ghost function DoBeginSweep(d: Daemon): Daemon {
    d.(phase := Sweeping(Sessions(d), 0), slots := map id | id in d.slots :: d.slots[id].(reserved := false))
  }

  function DoVisit(d: Daemon, id: SessionId): Daemon
    requires d.phase.Sweeping? && id in d.slots
  {
    d.(phase := d.phase.(pending := d.phase.pending - {id}),
    slots := d.slots[id := Go(d.slots[id], SWEEPER, Locating(ToEnd(Sweep)))])
  }

  /** Last section of shutdown_all, once every listener has been shut down. */
  function DoClear(d: Daemon): Daemon
    requires d.phase.Sweeping?
  {
    d.(phase := Settling(d.phase.count),
    slots := map id | id in d.slots :: Runs.Cleared(d.slots[id]))
  }

  predicate ReadyToClear(s: Slot) {
    s.ops == map[] || (IsSweepTaken(s) && Owned(s.ops[SWEEPER]) == {})
  }

  /** The daemon after a turn; a turn that it cannot take changes nothing. */
  ghost function After(d: Daemon, st: Turn): Daemon {
    if !CanStep(d, st) then d
    else
    match st
    case Reserve(id, op, config, secrets, source, seed) =>
      if !d.accepting || |Sessions(d)| + |Provisioning(d)| >= d.maxSessions || id in Sessions(d) || id in Provisioning(d)
      then d  // ShuttingDown, AtCapacity, Internal
      else d.(slots := d.slots[id := Runs.NewSlot(d.maxConnections, op, config, secrets, source, seed)])
    case Act(id, a) => DoAct(d, id, a)
    case CloseListener => d.(phase := Rejecting)
    case RejectNew => d.(phase := Rejected, accepting := false)
    case JoinConnections => d.(phase := Joined)
    case JoinCleanups => d.(phase := Quiet)
    case BeginSweep => DoBeginSweep(d)
    case Visit(id) => DoVisit(d, id)
    case ClearRegistry => DoClear(d)
    case StopOne => d.(phase := Settling(d.phase.left - 1), gauge := d.gauge - 1)
    case Terminate => d.(phase := Down)
  }

  // ----- one session of the daemon -----

  function View(d: Daemon, id: SessionId): Runs.State
    requires id in d.slots
  {
    Runs.State(d.accepting, d.slots[id])
  }

  /** What a turn is for the session `id`. */
  function StepOf(t: Turn, id: SessionId): Runs.Step {
    match t
    case Act(k, a) => if k == id then Runs.Act(a) else Runs.Elsewhere
    case RejectNew => Runs.RejectNew
    case BeginSweep => Runs.ForgetReservation
    case Visit(k) => if k == id then Runs.Act(ByControl(BeginEnd(SWEEPER, Sweep))) else Runs.Elsewhere
    case ClearRegistry => Runs.ClearRegistry(SWEEPER)
    case _ => Runs.Elsewhere
  }

  // ----- invariant -----

  ghost predicate PhaseOk(phase: Phase, id: SessionId, s: Slot) {
    match phase
    case Joined => forall op :: op in s.ops ==> IsCleanup(s.ops[op])
    case Quiet => s.ops == map[]
    case Sweeping(pending, _) =>
      && !s.reserved
      && s.ops.Keys <= {SWEEPER} && (SWEEPER in s.ops ==> IsSweep(s.ops[SWEEPER]))
      && (id in pending ==> s.ops == map[] && s.entry.Some?)
      && (id !in pending ==> (s.entry.Some? <==> SWEEPER in s.ops))
    case Settling(_) => s.ops == map[] && s.entry.None? && !s.reserved
    case Down => s.ops == map[] && s.entry.None? && !s.reserved
    case _ => true
  }

  ghost function Swept(d: Daemon): set<SessionId> { set id | id in d.slots && IsSweepTaken(d.slots[id]) }

  ghost predicate SessionsOk(d: Daemon) { forall id :: id in d.slots ==> Inv(d.accepting, d.maxConnections, d.slots[id]) }

  ghost predicate PhasesOk(d: Daemon) { forall id :: id in d.slots ==> PhaseOk(d.phase, id, d.slots[id]) }

  ghost predicate CountsOk(d: Daemon) {
    && |Sessions(d)| + |Provisioning(d)| <= d.maxSessions
    && d.gauge == |ActiveSessions(d)| + (if d.phase.Settling? then d.phase.left else 0)
    && (d.phase.Sweeping? ==> d.phase.count == |Swept(d)| && d.phase.pending <= d.slots.Keys)
  }

  ghost predicate DaemonInv(d: Daemon) {
    (d.accepting <==> d.phase.Serving? || d.phase.Rejecting?) && SessionsOk(d) && PhasesOk(d) && CountsOk(d)
  }
}
