/** Safety of every run of the daemon. */
module DaemonTheorems {
  import opened Basics
  import opened Config
  import opened Slots
  import opened SlotInvariants
  import opened SlotEffects
  import Runs = SessionRuns
  import SessionProperties
  import opened Daemon
  import DaemonProofs
  import Operations
  import opened SessionTables
  import opened SessionViews

  /** A run: states joined by turns, from the initial state. */
  ghost predicate IsRun(states: seq<Daemon>, turns: seq<Turn>) {
    && |states| == |turns| + 1
    && states[0] == Init(states[0].maxSessions, states[0].maxConnections)
    && forall i :: 0 <= i < |turns| ==> CanStep(states[i], turns[i]) && states[i + 1] == After(states[i], turns[i])
  }

  lemma InitInv(maxSessions: nat, maxConnections: nat)
    ensures DaemonInv(Init(maxSessions, maxConnections))
  {
    var d := Init(maxSessions, maxConnections);
    assert Sessions(d) == {} && Provisioning(d) == {} && ActiveSessions(d) == {};
  }

  lemma {:induction false} RunKeeps(states: seq<Daemon>, turns: seq<Turn>, i: nat)
    requires IsRun(states, turns) && i < |states|
    ensures DaemonInv(states[i])
  {
    hide DaemonInv; hide CanStep; hide After;
    if i == 0 {
      InitInv(states[0].maxSessions, states[0].maxConnections);
    } else {
      RunKeeps(states, turns, i - 1);
      DaemonProofs.TurnKeeps(states[i - 1], turns[i - 1]);
    }
  }

  /** In every state of every run each session satisfies its invariant. */
  lemma SessionSafe(states: seq<Daemon>, turns: seq<Turn>, i: nat, id: SessionId)
    requires IsRun(states, turns) && i < |states| && id in states[i].slots
    ensures Inv(states[i].accepting, states[i].maxConnections, states[i].slots[id])
  {
    hide CanStep; hide After; hide Inv; hide PhasesOk; hide CountsOk;
    RunKeeps(states, turns, i);
  }

  /** Registered and provisioning sessions are disjoint and together never exceed the limit. */
  lemma CapacityHolds(states: seq<Daemon>, turns: seq<Turn>, i: nat)
    requires IsRun(states, turns) && i < |states|
    ensures Sessions(states[i]) !! Provisioning(states[i])
    ensures |Sessions(states[i])| + |Provisioning(states[i])| <= states[i].maxSessions
  {
    RunKeeps(states, turns, i);
    var d := states[i];
    hide IsRun;
    forall id | id in Sessions(d) ensures id !in Provisioning(d) {
      assert EntryOk(d.slots[id]) by { assert Inv(d.accepting, d.maxConnections, d.slots[id]); }
    }
  }

  /** Removed sessions whose decrement is still due. */
  ghost function OwingSessions(d: Daemon): set<SessionId> { set id | id in d.slots && Owing(d.slots[id]) }

  /** They hold the reload lock of a removed session, so there is one per session at most. */
  lemma DueIsOwing(d: Daemon, id: SessionId, op: OpId)
    requires SessionsOk(d) && (id, op) in Due(d.slots)
    ensures id in OwingSessions(d) && d.slots[id].lock == Some(op) && id !in Sessions(d)
  {
    var s := d.slots[id];
    assert Inv(d.accepting, d.maxConnections, s);
    hide RuntimeOk; hide EntryOk; hide GateOk; hide ConnOk; hide EventOk;
    assert OpOk(s, op);
  }

  lemma {:induction false} CountFirsts(pairs: set<(SessionId, OpId)>, firsts: set<SessionId>)
    requires forall p, q :: p in pairs && q in pairs && p.0 == q.0 ==> p == q
    requires firsts == set p | p in pairs :: p.0
    ensures |firsts| == |pairs|
  {
    if pairs != {} {
      var p :| p in pairs;
      assert firsts - {p.0} == set q | q in pairs - {p} :: q.0;
      CountFirsts(pairs - {p}, firsts - {p.0});
    } else {
      assert firsts == {};
    }
  }

  lemma DueCount(d: Daemon)
    requires SessionsOk(d)
    ensures |Due(d.slots)| == |OwingSessions(d)| && Sessions(d) !! OwingSessions(d)
  {
    forall p | p in Due(d.slots) ensures p.0 in OwingSessions(d) && d.slots[p.0].lock == Some(p.1) { DueIsOwing(d, p.0, p.1); }
    forall id | id in OwingSessions(d) ensures id !in Sessions(d) && (id, d.slots[id].lock.value) in Due(d.slots) {
      DueIsOwing(d, id, d.slots[id].lock.value);
    }
    hide SessionsOk; hide Due;
    assert OwingSessions(d) == set p | p in Due(d.slots) :: p.0;
    CountFirsts(Due(d.slots), OwingSessions(d));
  }

  /**
   The gauge is the number of registered sessions plus the decrements still due, of operations that have erased their
   session or of the end of shutdown_all; so it never underflows.
   */
  lemma GaugeExact(states: seq<Daemon>, turns: seq<Turn>, i: nat)
    requires IsRun(states, turns) && i < |states|
    ensures var d := states[i];
            && d.gauge == |Sessions(d)| + |Due(d.slots)| + (if d.phase.Settling? then d.phase.left else 0)
            && 0 <= d.gauge
  {
    RunKeeps(states, turns, i);
    var d := states[i];
    hide IsRun; hide SessionsOk; hide PhasesOk;
    DueCount(d);
    hide Owing; hide Due;
    assert ActiveSessions(d) == Sessions(d) + OwingSessions(d);
  }

  /** After shutdown nothing is registered, the gauge is zero, and every listener ever started was dropped. */
  lemma ShutdownComplete(states: seq<Daemon>, turns: seq<Turn>, i: nat)
    requires IsRun(states, turns) && i < |states| && states[i].phase.Down?
    ensures var d := states[i];
            && Sessions(d) == {} && Provisioning(d) == {} && d.gauge == 0
            && forall id, h :: id in d.slots && 0 <= h < |d.slots[id].runtimes| ==>
                                 d.slots[id].runtimes[h].cancelled && d.slots[id].runtimes[h].aborted
  {
    hide Inv;
    RunKeeps(states, turns, i);
    var d := states[i];
    GaugeExact(states, turns, i);
    hide IsRun; hide CountsOk;
    forall id | id in d.slots ensures d.slots[id].ops == map[] && d.slots[id].entry.None? && !d.slots[id].reserved {
      assert PhaseOk(d.phase, id, d.slots[id]);
    }
    hide PhasesOk;
    forall id, h | id in d.slots && 0 <= h < |d.slots[id].runtimes|
      ensures d.slots[id].runtimes[h].cancelled && d.slots[id].runtimes[h].aborted
    {
      SessionProperties.RemovedLeavesNoListener(d.accepting, d.maxConnections, d.slots[id], h);
    }
    assert Due(d.slots) == {} && Sessions(d) == {};
  }

  // ----- each session on its own -----

  /** The daemon's states and turns from index `b` on, as the session `id` sees them. */
  ghost function Views(states: seq<Daemon>, id: SessionId, b: nat): seq<Runs.State>
    requires b < |states| && forall k :: b <= k < |states| ==> id in states[k].slots
  {
    seq(|states| - b, i requires 0 <= i < |states| - b => View(states[b + i], id))
  }

  function StepsOf(turns: seq<Turn>, id: SessionId, b: nat): seq<Runs.Step>
    requires b <= |turns|
  {
    seq(|turns| - b, i requires 0 <= i < |turns| - b => StepOf(turns[b + i], id))
  }

  /** Sessions are never forgotten. */
  lemma {:induction false} Remembered(states: seq<Daemon>, turns: seq<Turn>, i: nat, j: nat, id: SessionId)
    requires IsRun(states, turns) && i <= j < |states| && id in states[i].slots
    ensures id in states[j].slots && states[j].maxConnections == states[i].maxConnections
    decreases j
  {
    hide CanStep; hide After; hide DaemonInv; hide StepOf;
    if i < j {
      Remembered(states, turns, i, j - 1, id);
      RunKeeps(states, turns, j - 1);
      DaemonProofs.Projects(states[j - 1], turns[j - 1], id);
      DaemonProofs.TurnLimit(states[j - 1], turns[j - 1]);
    }
  }

  /** The state that has a session first. */
  lemma {:induction false} Birth(states: seq<Daemon>, turns: seq<Turn>, i: nat, id: SessionId) returns (b: nat)
    requires IsRun(states, turns) && i < |states| && id in states[i].slots
    ensures b <= i && id in states[b].slots && Runs.IsStart(View(states[b], id), states[b].maxConnections)
  {
    hide After; hide CanStep; hide Runs.IsStart;
    if id in states[i - 1].slots {
      b := Birth(states, turns, i - 1, id);
    } else {
      b := i;
      DaemonProofs.StartsAs(states[i - 1], turns[i - 1], id);
      DaemonProofs.TurnLimit(states[i - 1], turns[i - 1]);
    }
  }

  /**
   Every run of the daemon is, from its reservation on, a run of each of its sessions; so all that holds of the runs of
   one session holds of every session of the daemon.
   */
  lemma Projects(states: seq<Daemon>, turns: seq<Turn>, i: nat, id: SessionId) returns (b: nat)
    requires IsRun(states, turns) && i < |states| && id in states[i].slots
    ensures b <= i && forall k :: b <= k < |states| ==> id in states[k].slots
    ensures Runs.IsRun(states[i].maxConnections, Views(states, id, b), StepsOf(turns, id, b))
  {
    hide CanStep; hide After; hide DaemonInv; hide StepOf; hide Runs.IsStart; hide Runs.CanStep; hide Runs.After;
    b := Birth(states, turns, i, id);
    forall k | b <= k < |states| ensures id in states[k].slots && states[k].maxConnections == states[b].maxConnections {
      Remembered(states, turns, b, k, id);
    }
    forall k | b <= k < |turns|
      ensures Runs.CanStep(View(states[k], id), StepOf(turns[k], id))
      ensures View(states[k + 1], id) == Runs.After(View(states[k], id), StepOf(turns[k], id))
    {
      RunKeeps(states, turns, k);
      DaemonProofs.Projects(states[k], turns[k], id);
    }
    var views, steps := Views(states, id, b), StepsOf(turns, id, b);
    forall k | 0 <= k < |steps| ensures Runs.CanStep(views[k], steps[k]) && views[k + 1] == Runs.After(views[k], steps[k]) {
      assert views[k] == View(states[b + k], id) && views[k + 1] == View(states[b + k + 1], id);
      assert steps[k] == StepOf(turns[b + k], id);
    }
  }

  /** Once the gate has moved past a listener, no admission check of that listener succeeds again. */
  lemma NoAdmissionAfterCutover(states: seq<Daemon>, turns: seq<Turn>, i: nat, j: nat, id: SessionId, h: Handle)
    requires IsRun(states, turns) && i <= j < |turns| && id in states[i].slots && h < |states[i].slots[id].runtimes|
    requires states[i].slots[id].runtimes[h].generation < states[i].slots[id].gate
    requires turns[j] == Act(id, ByListener(AcceptGate(h)))
    ensures id in states[j + 1].slots && h < |states[j + 1].slots[id].runtimes|
    ensures states[j + 1].slots[id].runtimes[h].accept == Idle
  {
    hide Runs.IsRun; hide CanStep; hide After;
    var b := Projects(states, turns, i, id);
    var views, steps := Views(states, id, b), StepsOf(turns, id, b);
    assert views[i - b] == View(states[i], id) && views[j + 1 - b] == View(states[j + 1], id);
    assert steps[j - b] == StepOf(turns[j], id);
    Runs.NoAdmissionAfterCutover(states[i].maxConnections, views, steps, i - b, j - b, h);
  }

  // ----- creating a session -----

  lemma ReserveTurn(d: Daemon, t: Turn)
    requires t.Reserve? && t.id !in d.slots && (d.phase.Serving? || d.phase.Rejecting?) && d.accepting && RegistryFree(d)
    requires |Sessions(d)| + |Provisioning(d)| < d.maxSessions
    ensures After(d, t) == d.(slots := d.slots[t.id := Runs.NewSlot(d.maxConnections, t.op, t.config, t.secrets, t.source, t.seed)])
  {
    hide Runs.NewSlot; hide RegistryFree;
    assert t.id !in Sessions(d) && t.id !in Provisioning(d);
  }

  lemma ActTurn(d: Daemon, id: SessionId, s: Slot, a: Action)
    requires id !in d.slots && RegistryFree(d) && !RegistryHeld(s) && Enabled(d.accepting, s, a) && d.phase.Serving? && Allowed(d.phase, a)
    ensures var d' := d.(slots := d.slots[id := s]);
            After(d', Act(id, a)) == d.(slots := d.slots[id := Next(d.accepting, s, a)], gauge := d.gauge + GaugeChange(d.accepting, a))
  {
    hide Next; hide Enabled; hide Allowed; hide GaugeChange;
    var d' := d.(slots := d.slots[id := s]);
    forall k | k in d'.slots ensures !RegistryHeld(d'.slots[k]) {}
    assert d.slots[id := s][id := Next(d.accepting, s, a)] == d.slots[id := Next(d.accepting, s, a)];
  }

  /** While the daemon serves and has room, a create under a fresh id registers its session and counts it. */
  lemma CreateSucceeds(
    d: Daemon, id: SessionId, op: OpId, config: SessionConfig, secrets: Secrets, source: Option<string>, seed: Seed, path: string)
    requires DaemonInv(d) && d.phase.Serving? && RegistryFree(d) && id !in d.slots
    requires |Sessions(d)| + |Provisioning(d)| < d.maxSessions
    ensures var d1 := After(d, Reserve(id, op, config, secrets, source, seed));
            var d2 := After(d1, Act(id, ByControl(Control.StartFirst(op, Some(path)))));
            var d3 := After(d2, Act(id, ByControl(Control.Publish(op))));
            && d3.gauge == d.gauge + 1 && id in d3.slots && d3 == d.(slots := d.slots[id := d3.slots[id]], gauge := d3.gauge)
            && d3.slots[id].entry == Some(Session(Running, config, secrets, source, path, 1, 1, Some(0), {}, 0))
  {
    assert d.accepting;
    hide DaemonInv; hide RegistryFree; hide After; hide Runs.NewSlot;
    var s0 := Runs.NewSlot(d.maxConnections, op, config, secrets, source, seed);
    var first, publish := ByControl(Control.StartFirst(op, Some(path))), ByControl(Control.Publish(op));
    ReserveTurn(d, Reserve(id, op, config, secrets, source, seed));
    CreateSteps(d.maxConnections, op, config, secrets, source, seed, path);
    ActTurn(d, id, s0, first);
    ActTurn(d, id, Next(true, s0, first), publish);
  }

  lemma CreateSteps(
    limit: nat, op: OpId, config: SessionConfig, secrets: Secrets, source: Option<string>, seed: Seed, path: string)
    ensures var s0 := Runs.NewSlot(limit, op, config, secrets, source, seed);
            var first, publish := ByControl(Control.StartFirst(op, Some(path))), ByControl(Control.Publish(op));
            var s1 := Next(true, s0, first);
            && Enabled(true, s0, first) && !RegistryHeld(s0) && Enabled(true, s1, publish) && !RegistryHeld(s1)
            && Next(true, s1, publish).entry == Some(Session(Running, config, secrets, source, path, 1, 1, Some(0), {}, 0))
            && GaugeChange(true, first) == 0 && GaugeChange(true, publish) == 1
            && Allowed(Serving, first) && Allowed(Serving, publish)
  {
    Operations.CreateRegisters(limit, op, config, secrets, source, seed, path);
    var s0 := Runs.NewSlot(limit, op, config, secrets, source, seed);
    var s1 := ControlNext(true, s0, Control.StartFirst(op, Some(path)));
    assert s1.ops == map[op := Publishing(config, secrets, source, 0)] && |s1.runtimes| == 1;
  }
}
