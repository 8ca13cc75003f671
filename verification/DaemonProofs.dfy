/** Every turn of the daemon keeps its invariant. */
module DaemonProofs {
  import opened Basics
  import opened Config
  import opened Slots
  import opened SlotInvariants
  import opened SlotEffects
  import opened SlotTheorems
  import opened SlotTurns
  import Runs = SessionRuns
  import opened Daemon

  // ----- one slot: what the daemon counts -----

  /** The gauge follows the slot, and the slot never claims more of the session limit than before. */
  ghost predicate Accounted(acc: bool, s: Slot, s': Slot, a: Action) {
    && One(Active(s')) == One(Active(s)) + GaugeChange(acc, a)
    && One(s'.entry.Some?) + One(s'.reserved) <= One(s.entry.Some?) + One(s.reserved)
  }

  lemma GoAccounted(acc: bool, limit: nat, s: Slot, s': Slot, op: OpId, a: Action)
    requires Inv(acc, limit, s) && op !in s.ops && !Counts(a) && op in s'.ops
    requires s' == s.(ops := s.ops[op := s'.ops[op]], events := s'.events)
    ensures Accounted(acc, s, s', a)
  {
    assert s.lock.Some? ==> s.lock.value in s.ops by {
      hide OpOk; hide RuntimeOk; hide EntryOk; hide ConnOk; hide EventOk;
      assert GateOk(s);
    }
    hide Inv; hide Counts;
  }

  lemma BeginAccounted(acc: bool, limit: nat, s: Slot, a: Action)
    requires Inv(acc, limit, s) && Enabled(acc, s, a) && Begins(a)
    ensures Accounted(acc, s, Next(acc, s, a), a)
  {
    hide Inv; hide Accounted;
    BeginShape(acc, s, a);
    hide Next; hide Enabled; hide Begins;
    GoAccounted(acc, limit, s, Next(acc, s, a), Mover(a), a);
  }

  lemma BeginShape(acc: bool, s: Slot, a: Action)
    requires Enabled(acc, s, a) && Begins(a)
    ensures var s', op := Next(acc, s, a), Mover(a);
            op !in s.ops && op in s'.ops && s' == s.(ops := s.ops[op := s'.ops[op]], events := s'.events) && !Counts(a)
  {
    match a
    case ByControl(c) => BeginControl(acc, s, c);
    case ByReload(r) => BeginTheReload(acc, s, r.op);
  }

  lemma BeginControl(acc: bool, s: Slot, c: Control)
    requires ControlEnabled(acc, s, c) && (c.BeginEnd? || c.Deliver?)
    ensures var s' := ControlNext(acc, s, c);
            c.op !in s.ops && c.op in s'.ops && s' == s.(ops := s.ops[c.op := s'.ops[c.op]], events := s'.events)
  {
  }

  lemma BeginTheReload(acc: bool, s: Slot, op: OpId)
    requires ReloadEnabled(s, BeginReload(op))
    ensures var s' := ReloadNext(acc, s, BeginReload(op));
            op !in s.ops && op in s'.ops && s' == s.(ops := s.ops[op := s'.ops[op]], events := s'.events)
  {
  }

  lemma PublishAccounted(acc: bool, limit: nat, s: Slot, op: OpId)
    requires Inv(acc, limit, s) && ControlEnabled(acc, s, Publish(op))
    ensures Accounted(acc, s, DoPublish(acc, s, op), ByControl(Publish(op)))
  {
    hide RuntimeOk; hide EntryOk; hide ConnOk; hide EventOk; hide MoveTo; hide Drop;
    assert GateOk(s) && OpOk(s, op);
    hide GateOk; hide OpOk;
  }

  lemma UnreserveAccounted(acc: bool, limit: nat, s: Slot, op: OpId)
    requires Inv(acc, limit, s) && ControlEnabled(acc, s, Unreserve(op))
    ensures Accounted(acc, s, Return(s, op).(reserved := false), ByControl(Unreserve(op)))
  {
    hide RuntimeOk; hide EntryOk; hide ConnOk; hide EventOk;
    assert GateOk(s) && OpOk(s, op);
  }

  lemma EraseAccounted(acc: bool, limit: nat, s: Slot, op: OpId)
    requires Inv(acc, limit, s) && ControlEnabled(acc, s, Erase(op))
    ensures Accounted(acc, s, DoErase(s, op), ByControl(Erase(op)))
  {
    hide RuntimeOk; hide EntryOk; hide ConnOk; hide EventOk; hide GateOk; hide Return;
    assert OpOk(s, op);
    assert s.lock == Some(op);
    hide OpOk; hide Inv; hide InvBut;
    if s.entry.None? { EraseReturns(s, op); }
  }

  lemma EraseReturns(s: Slot, op: OpId)
    requires op in s.ops && s.lock == Some(op) && s.ops[op].Ending? && s.ops[op].end.Erasing?
    ensures Return(s, op).lock.None? && !Owing(s) && Return(s, op).entry == s.entry && Return(s, op).reserved == s.reserved
  {
  }

  lemma CountAccounted(acc: bool, limit: nat, s: Slot, op: OpId)
    requires Inv(acc, limit, s) && ControlEnabled(acc, s, Count(op))
    ensures Accounted(acc, s, Return(s, op), ByControl(Count(op)))
  {
    hide RuntimeOk; hide EntryOk; hide ConnOk; hide EventOk; hide GateOk;
    assert OpOk(s, op);
    assert s.lock == Some(op) && s.entry.None?;
    hide Inv; hide InvBut; hide OpOk;
    CountReturns(s, op);
    hide Return;
  }

  lemma CountReturns(s: Slot, op: OpId)
    requires op in s.ops && s.lock == Some(op) && s.ops[op].Ending? && s.ops[op].end.Counting?
    ensures Return(s, op).lock.None? && Owing(s) && Return(s, op).entry == s.entry && Return(s, op).reserved == s.reserved
  {
  }

  lemma ActAccounted(acc: bool, limit: nat, s: Slot, a: Action)
    requires Inv(acc, limit, s) && Enabled(acc, s, a)
    ensures Accounted(acc, s, Next(acc, s, a), a)
  {
    hide Inv; hide Accounted; hide DoPublish; hide DoErase; hide Return;
    if Begins(a) { BeginAccounted(acc, limit, s, a); }
    else if Counts(a) {
      match a.control
      case Publish(op) => PublishAccounted(acc, limit, s, op);
      case Unreserve(op) => UnreserveAccounted(acc, limit, s, op);
      case Erase(op) => EraseAccounted(acc, limit, s, op);
      case Count(op) => CountAccounted(acc, limit, s, op);
    } else {
      hide Next;
      Keeps(acc, limit, s, a);
      SlotEffects.Quiet(acc, limit, s, a);
      StillAccounted(acc, s, Next(acc, s, a), a);
    }
  }

  lemma StillAccounted(acc: bool, s: Slot, s': Slot, a: Action)
    requires s'.entry.Some? == s.entry.Some? && s'.reserved == s.reserved && Owing(s') == Owing(s) && !Counts(a)
    ensures Accounted(acc, s, s', a)
  {
    hide Owing;
  }

  // ----- one slot: shutdown phases -----

  lemma CleanupStays(acc: bool, limit: nat, s: Slot, a: Action)
    requires Inv(acc, limit, s) && Enabled(acc, s, a) && !Begins(a)
    requires forall op :: op in s.ops ==> IsCleanup(s.ops[op])
    ensures forall op :: op in Next(acc, s, a).ops ==> IsCleanup(Next(acc, s, a).ops[op])
  {
    if Counts(a) {
      hide Inv;
      CleanupCounts(acc, s, a.control);
    } else {
      hide Inv; hide Next;
      ActionMoves(acc, s, a);
    }
  }

  lemma CleanupCounts(acc: bool, s: Slot, c: Control)
    requires ControlEnabled(acc, s, c) && Counts(ByControl(c)) && forall op :: op in s.ops ==> IsCleanup(s.ops[op])
    ensures forall op :: op in ControlNext(acc, s, c).ops ==> IsCleanup(ControlNext(acc, s, c).ops[op])
  {
    hide Return; hide DoPublish;
    match c
    case Erase(op) => CleanupErase(s, op);
    case Count(op) =>
    case _ =>
  }

  lemma CleanupErase(s: Slot, op: OpId)
    requires EndingAt(s, op) && forall o :: o in s.ops ==> IsCleanup(s.ops[o])
    ensures forall o :: o in DoErase(s, op).ops ==> IsCleanup(DoErase(s, op).ops[o])
  {
    hide Return;
  }

  lemma IdleStays(acc: bool, s: Slot, a: Action)
    requires Enabled(acc, s, a) && !Begins(a) && s.ops == map[]
    ensures var s' := Next(acc, s, a);
            s'.ops == map[] && s'.entry.Some? == s.entry.Some? && s'.reserved == s.reserved
  {
    assert !Counts(a);
    hide Next;
    ActionMoves(acc, s, a);
  }

  ghost predicate SweepOnly(s: Slot) { s.ops.Keys == {SWEEPER} && IsSweep(s.ops[SWEEPER]) && s.entry.Some? && !s.reserved }

  lemma SweepNotCounting(limit: nat, s: Slot)
    requires Inv(false, limit, s) && SweepOnly(s)
    ensures s.ops[SWEEPER].Ending? ==> s.ops[SWEEPER].end.Deciding? || s.ops[SWEEPER].end.Shutting?
  {
    assert OpOk(s, SWEEPER);
  }

  lemma SweepControlStays(s: Slot, c: Control)
    requires ControlEnabled(false, s, c) && SweepOnly(s) && !c.Prune? && !Begins(ByControl(c))
    requires s.ops[SWEEPER].Ending? ==> s.ops[SWEEPER].end.Deciding? || s.ops[SWEEPER].end.Shutting?
    ensures SWEEPER in ControlNext(false, s, c).ops && !Counts(ByControl(c))
    ensures IsSweepTaken(s) ==> IsSweepTaken(ControlNext(false, s, c))
  {
    hide Drop; hide MoveTo; hide AllListeners;
    assert c.op == SWEEPER;
  }

  lemma SweepActionStays(s: Slot, a: Action)
    requires Enabled(false, s, a) && !Begins(a) && SweepOnly(s)
    requires s.ops[SWEEPER].Ending? ==> s.ops[SWEEPER].end.Deciding? || s.ops[SWEEPER].end.Shutting?
    ensures !Counts(a) && SWEEPER in Next(false, s, a).ops
    ensures IsSweepTaken(s) ==> IsSweepTaken(Next(false, s, a))
  {
    if a.ByControl? && !a.control.Prune? {
      hide ControlNext;
      SweepControlStays(s, a.control);
    } else {
      hide Next;
      ActionMoves(false, s, a);
      assert Next(false, s, a).ops == s.ops by { SweepOthers(s, a); }
    }
  }

  lemma SweepOthers(s: Slot, a: Action)
    requires Enabled(false, s, a) && !Begins(a) && SweepOnly(s) && (a.ByControl? ==> a.control.Prune?)
    ensures Next(false, s, a).ops == s.ops
  {
    if a.ByListener? { ListenerSame(s, a.listener); hide ListenerNext; }
    hide Drop;
  }

  lemma ListenerSame(s: Slot, l: Listener)
    requires ListenerEnabled(s, l)
    ensures ListenerNext(s, l).ops == s.ops
  {
    hide ListenerNext;
  }

  lemma SweepStays(limit: nat, s: Slot, a: Action)
    requires Inv(false, limit, s) && Enabled(false, s, a) && !Begins(a) && SweepOnly(s)
    ensures SweepOnly(Next(false, s, a))
    ensures IsSweepTaken(s) ==> IsSweepTaken(Next(false, s, a))
  {
    SweepNotCounting(limit, s);
    hide Inv; hide Next;
    SweepActionStays(s, a);
    ActionMoves(false, s, a);
  }

  lemma ActPhase(phase: Phase, limit: nat, acc: bool, id: SessionId, s: Slot, a: Action)
    requires Inv(acc, limit, s) && PhaseOk(phase, id, s) && Enabled(acc, s, a) && Allowed(phase, a)
    requires acc <==> phase.Serving? || phase.Rejecting?
    ensures PhaseOk(phase, id, Next(acc, s, a))
    ensures phase.Sweeping? && IsSweepTaken(s) ==> IsSweepTaken(Next(acc, s, a))
  {
    hide Inv; hide Next; hide Enabled;
    match phase
    case Joined => CleanupStays(acc, limit, s, a);
    case Quiet => IdleStays(acc, s, a);
    case Settling(_) => IdleStays(acc, s, a);
    case Down => IdleStays(acc, s, a);
    case Sweeping(pending, _) =>
      if SWEEPER in s.ops { assert SweepOnly(s); SweepStays(limit, s, a); }
      else { IdleStays(acc, s, a); }
    case _ =>
  }

  // ----- counting slots -----

  ghost predicate Replaced(d: Daemon, d': Daemon, id: SessionId) {
    id in d'.slots && d'.slots == d.slots[id := d'.slots[id]]
  }

  lemma CountEntries(d: Daemon, d': Daemon, id: SessionId)
    requires Replaced(d, d', id)
    ensures |Sessions(d')| - One(d'.slots[id].entry.Some?) == |Sessions(d)| - One(id in d.slots && d.slots[id].entry.Some?)
    ensures |Provisioning(d')| - One(d'.slots[id].reserved) == |Provisioning(d)| - One(id in d.slots && d.slots[id].reserved)
  {
    CountMember(Sessions(d), Sessions(d'), id);
    CountMember(Provisioning(d), Provisioning(d'), id);
  }

  lemma CountActive(d: Daemon, d': Daemon, id: SessionId)
    requires Replaced(d, d', id)
    ensures |ActiveSessions(d')| - One(Active(d'.slots[id])) == |ActiveSessions(d)| - One(id in d.slots && Active(d.slots[id]))
  {
    hide Active;
    CountMember(ActiveSessions(d), ActiveSessions(d'), id);
  }

  lemma CountSwept(d: Daemon, d': Daemon, id: SessionId)
    requires Replaced(d, d', id)
    ensures |Swept(d')| - One(IsSweepTaken(d'.slots[id])) == |Swept(d)| - One(id in d.slots && IsSweepTaken(d.slots[id]))
  {
    hide IsSweepTaken;
    CountMember(Swept(d), Swept(d'), id);
  }

  lemma UpdateCounts(d: Daemon, d': Daemon, id: SessionId)
    requires id in d'.slots && d'.slots == d.slots[id := d'.slots[id]]
    ensures |Sessions(d')| - One(d'.slots[id].entry.Some?) == |Sessions(d)| - One(id in d.slots && d.slots[id].entry.Some?)
    ensures |Provisioning(d')| - One(d'.slots[id].reserved) == |Provisioning(d)| - One(id in d.slots && d.slots[id].reserved)
    ensures |ActiveSessions(d')| - One(Active(d'.slots[id])) == |ActiveSessions(d)| - One(id in d.slots && Active(d.slots[id]))
    ensures |Swept(d')| - One(IsSweepTaken(d'.slots[id])) == |Swept(d)| - One(id in d.slots && IsSweepTaken(d.slots[id]))
  {
    assert Replaced(d, d', id);
    hide *;
    CountEntries(d, d', id);
    CountActive(d, d', id);
    CountSwept(d, d', id);
  }

  // ----- each turn is a step of each session -----

  lemma SweptSlot(phase: Phase, id: SessionId, s: Slot)
    requires phase.Sweeping? && phase.pending == {} && PhaseOk(phase, id, s) && ReadyToClear(s)
    ensures Runs.IsSwept(s, SWEEPER) && !s.reserved && (s.entry.Some? <==> IsSweepTaken(s))
  {
  }

  lemma VisitStep(s: Slot)
    requires s.ops == map[]
    ensures var a := ByControl(BeginEnd(SWEEPER, Sweep));
            Enabled(false, s, a) && Next(false, s, a) == Go(s, SWEEPER, Locating(ToEnd(Sweep)))
  {
  }

  lemma PendingIdle(d: Daemon, id: SessionId)
    requires PhasesOk(d) && d.phase.Sweeping? && id in d.phase.pending && id in d.slots
    ensures d.slots[id].ops == map[] && d.slots[id].entry.Some? && !d.slots[id].reserved
  {
    assert PhaseOk(d.phase, id, d.slots[id]);
  }

  lemma QuietSlot(d: Daemon, id: SessionId)
    requires PhasesOk(d) && d.phase.Quiet? && id in d.slots
    ensures d.slots[id].ops == map[]
  {
    assert PhaseOk(d.phase, id, d.slots[id]);
  }

  /** A turn of the daemon is, for each of its sessions, a step of a run of that session. */
  lemma Projects(d: Daemon, t: Turn, id: SessionId)
    requires DaemonInv(d) && CanStep(d, t) && id in d.slots
    ensures id in After(d, t).slots && Runs.CanStep(View(d, id), StepOf(t, id))
    ensures View(After(d, t), id) == Runs.After(View(d, id), StepOf(t, id))
  {
    hide SessionsOk; hide PhasesOk; hide CountsOk; hide Runs.IsSwept; hide Runs.Cleared; hide Enabled; hide Next; hide Allowed;
    hide Runs.NewSlot; hide ReadyToClear;
    match t
    case Visit(k) => PendingIdle(d, k); VisitStep(d.slots[k]);
    case BeginSweep => QuietSlot(d, id);
    case ClearRegistry =>
      assert PhaseOk(d.phase, id, d.slots[id]) by { assert PhasesOk(d); InPhase(d, id); }
      hide PhaseOk;
      SweptSlot(d.phase, id, d.slots[id]);
    case _ =>
  }

  lemma InPhase(d: Daemon, id: SessionId)
    requires PhasesOk(d) && id in d.slots
    ensures PhaseOk(d.phase, id, d.slots[id])
  {
  }

  // ----- sessions -----

  lemma TurnLimit(d: Daemon, t: Turn)
    ensures After(d, t).maxConnections == d.maxConnections && After(d, t).maxSessions == d.maxSessions
  {
    hide CanStep; hide Next; hide Sessions; hide Provisioning; hide Runs.NewSlot; hide Runs.Cleared;
  }

  /** Only a reservation adds a session, while sessions are accepted. */
  lemma NewSession(d: Daemon, t: Turn, id: SessionId)
    requires id !in d.slots && id in After(d, t).slots
    ensures t.Reserve? && d.accepting && After(d, t).accepting
    ensures After(d, t).slots[id] == Runs.NewSlot(d.maxConnections, t.op, t.config, t.secrets, t.source, t.seed)
  {
    hide Next; hide Sessions; hide Provisioning; hide Runs.NewSlot; hide Runs.Cleared; hide Enabled; hide RegistryFree;
  }

  lemma StartsAs(d: Daemon, t: Turn, id: SessionId)
    requires id !in d.slots && id in After(d, t).slots
    ensures Runs.IsStart(View(After(d, t), id), d.maxConnections)
  {
    hide After; hide Runs.NewSlot;
    NewSession(d, t, id);
  }

  lemma TurnSessions(d: Daemon, t: Turn)
    requires DaemonInv(d) && CanStep(d, t)
    ensures SessionsOk(After(d, t))
  {
    var d' := After(d, t);
    TurnLimit(d, t);
    hide After; hide CanStep; hide PhasesOk; hide CountsOk; hide Inv; hide Runs.IsStart; hide Runs.CanStep; hide Runs.After;
    forall id | id in d'.slots ensures Inv(d'.accepting, d'.maxConnections, d'.slots[id]) {
      if id in d.slots {
        Projects(d, t, id);
        Runs.StepKeeps(d.maxConnections, View(d, id), StepOf(t, id));
      } else {
        StartsAs(d, t, id);
        NewSession(d, t, id);
        Runs.StartOk(d.maxConnections, View(d', id));
      }
    }
  }

  // ----- phases -----

  /** Charging the sweep counter does not change what the phase demands of a slot. */
  lemma ChargedPhase(phase: Phase, s: Slot, s': Slot, id: SessionId, k: Slot)
    requires PhaseOk(phase, id, k)
    ensures PhaseOk(Charged(phase, s, s'), id, k)
  {
  }

  lemma ActPhases(d: Daemon, id: SessionId, a: Action)
    requires DaemonInv(d) && id in d.slots && Enabled(d.accepting, d.slots[id], a) && Allowed(d.phase, a)
    ensures PhasesOk(DoAct(d, id, a))
  {
    hide CountsOk; hide Inv; hide Next; hide Enabled; hide Allowed; hide PhaseOk; hide Charged;
    var d', s := DoAct(d, id, a), d.slots[id];
    ActPhase(d.phase, d.maxConnections, d.accepting, id, s, a);
    forall k | k in d'.slots ensures PhaseOk(d'.phase, k, d'.slots[k]) {
      ChargedPhase(d.phase, s, Next(d.accepting, s, a), k, d'.slots[k]);
    }
  }

  lemma VisitPhases(d: Daemon, id: SessionId)
    requires PhasesOk(d) && d.phase.Sweeping? && id in d.phase.pending && id in d.slots
    ensures PhasesOk(DoVisit(d, id))
  {
    var d' := DoVisit(d, id);
    PendingIdle(d, id);
    forall k | k in d'.slots ensures PhaseOk(d'.phase, k, d'.slots[k]) { assert PhaseOk(d.phase, k, d.slots[k]); }
  }

  lemma TurnPhases(d: Daemon, t: Turn)
    requires DaemonInv(d) && CanStep(d, t)
    ensures PhasesOk(After(d, t))
  {
    var d' := After(d, t);
    match t
    case Act(id, a) => hide DaemonInv; hide Enabled; hide DoAct; hide PhasesOk; ActPhases(d, id, a);
    case Visit(id) => hide SessionsOk; hide CountsOk; hide PhasesOk; hide DoVisit; VisitPhases(d, id);
    case BeginSweep => hide SessionsOk; hide CountsOk; hide PhasesOk; hide DoBeginSweep; SweepPhases(d);
    case ClearRegistry => hide SessionsOk; hide CountsOk; hide PhaseOk; hide DoClear; hide ReadyToClear; ClearPhases(d);
    case JoinConnections => hide SessionsOk; hide CountsOk; hide IsCleanup;
    case JoinCleanups => hide SessionsOk; hide CountsOk;
    case StopOne => hide SessionsOk; hide CountsOk; InPhases(d, d');
    case Terminate => hide SessionsOk; hide CountsOk; InPhases(d, d');
    case _ => hide DaemonInv; hide PhasesOk; hide RegistryFree; hide Runs.NewSlot; EarlyPhases(d');
  }

  lemma EarlyPhases(d: Daemon)
    requires d.phase.Serving? || d.phase.Rejecting? || d.phase.Rejected?
    ensures PhasesOk(d)
  {
  }

  lemma InPhases(d: Daemon, d': Daemon)
    requires PhasesOk(d) && d'.slots == d.slots && d.phase.Settling? && (d'.phase.Settling? || d'.phase.Down?)
    ensures PhasesOk(d')
  {
    forall id | id in d'.slots ensures PhaseOk(d'.phase, id, d'.slots[id]) { InPhase(d, id); }
  }

  lemma SweepPhases(d: Daemon)
    requires PhasesOk(d) && d.phase.Quiet?
    ensures PhasesOk(DoBeginSweep(d))
  {
    forall id | id in d.slots ensures d.slots[id].ops == map[] { QuietSlot(d, id); }
    var d' := DoBeginSweep(d);
    forall id | id in d'.slots ensures PhaseOk(d'.phase, id, d'.slots[id]) {}
  }

  lemma ClearPhases(d: Daemon)
    requires PhasesOk(d) && d.phase.Sweeping?
    ensures PhasesOk(DoClear(d))
  {
  }

  // ----- counts -----

  /** If one slot is accounted for, so is the daemon. */
  lemma CountsFollow(d: Daemon, d': Daemon, id: SessionId, a: Action)
    requires CountsOk(d) && id in d.slots && id in d'.slots && d'.slots == d.slots[id := d'.slots[id]]
    requires Accounted(d.accepting, d.slots[id], d'.slots[id], a)
    requires d'.gauge == d.gauge + GaugeChange(d.accepting, a) && d'.maxSessions == d.maxSessions
    requires d'.phase == Charged(d.phase, d.slots[id], d'.slots[id])
    requires d.phase.Sweeping? && IsSweepTaken(d.slots[id]) ==> IsSweepTaken(d'.slots[id])
    ensures CountsOk(d')
  {
    hide Active; hide IsSweepTaken; hide GaugeChange; hide Sessions; hide Provisioning; hide ActiveSessions; hide Swept;
    UpdateCounts(d, d', id);
  }

  lemma ActCounts(d: Daemon, id: SessionId, a: Action)
    requires DaemonInv(d) && id in d.slots && Enabled(d.accepting, d.slots[id], a) && Allowed(d.phase, a)
    ensures CountsOk(DoAct(d, id, a))
  {
    var d' := DoAct(d, id, a);
    var s := d.slots[id];
    assert PhaseOk(d.phase, id, s) && Inv(d.accepting, d.maxConnections, s);
    hide Inv; hide Next; hide Enabled; hide Allowed; hide IsSweepTaken; hide PhaseOk; hide SessionsOk; hide PhasesOk; hide CountsOk;
    hide Accounted; hide Charged;
    ActAccounted(d.accepting, d.maxConnections, s, a);
    ActPhase(d.phase, d.maxConnections, d.accepting, id, s, a);
    CountsFollow(d, d', id, a);
  }

  lemma ReserveCounts(d: Daemon, t: Turn)
    requires CountsOk(d) && CanStep(d, t) && t.Reserve?
    ensures CountsOk(After(d, t))
  {
    hide RegistryFree;
    var d' := After(d, t);
    if d' != d {
      assert !Active(d'.slots[t.id]) && d'.slots[t.id].entry.None? && d'.slots[t.id].reserved;
      hide Active; hide Runs.NewSlot;
      UpdateCounts(d, d', t.id);
    }
  }

  lemma SameSlots(d: Daemon, d': Daemon)
    requires d'.slots == d.slots
    ensures ActiveSessions(d') == ActiveSessions(d) && Sessions(d') == Sessions(d) && Provisioning(d') == Provisioning(d)
  {
  }

  lemma UnmarkedActive(s: Slot)
    ensures Active(s.(reserved := false)) == Active(s)
  {
  }

  lemma SweepStart(d: Daemon)
    requires forall id :: id in d.slots ==> d.slots[id].ops == map[]
    ensures var d' := DoBeginSweep(d);
            Sessions(d') == Sessions(d) && Provisioning(d') == {} && Swept(d') == {} && ActiveSessions(d') == ActiveSessions(d)
    ensures Sessions(d) <= d.slots.Keys
  {
    hide Active;
    forall s: Slot ensures Active(s.(reserved := false)) == Active(s) { UnmarkedActive(s); }
  }

  lemma SweepCounts(d: Daemon)
    requires DaemonInv(d) && d.phase.Quiet?
    ensures CountsOk(DoBeginSweep(d))
  {
    hide SessionsOk;
    forall id | id in d.slots ensures d.slots[id].ops == map[] { QuietSlot(d, id); }
    hide PhasesOk;
    SweepStart(d);
    hide Sessions; hide Provisioning; hide ActiveSessions; hide Swept;
  }

  lemma VisitCounts(d: Daemon, id: SessionId)
    requires CountsOk(d) && d.phase.Sweeping? && id in d.slots
    requires d.slots[id].ops == map[] && d.slots[id].entry.Some?
    ensures CountsOk(DoVisit(d, id))
  {
    var d' := DoVisit(d, id);
    assert Active(d'.slots[id]) && Active(d.slots[id]) && !IsSweepTaken(d'.slots[id]);
    hide Sessions; hide Provisioning; hide ActiveSessions; hide Swept; hide Active; hide IsSweepTaken;
    UpdateCounts(d, d', id);
  }

  lemma SweptIdle(s: Slot, limit: nat)
    requires Inv(false, limit, s) && Runs.IsSwept(s, SWEEPER)
    ensures !Owing(s)
  {
    hide RuntimeOk; hide EntryOk; hide ConnOk; hide EventOk; hide GateOk;
  }

  /** Before the registry is cleared the gauge counts what was visited; afterwards nothing is left but the remainder. */
  lemma ClearCounts(d: Daemon)
    requires CountsOk(d) && d.phase.Sweeping?
    requires forall id :: id in d.slots ==>
                            (d.slots[id].entry.Some? <==> IsSweepTaken(d.slots[id])) && !Owing(d.slots[id]) && !d.slots[id].reserved
    ensures CountsOk(DoClear(d))
  {
    var d' := DoClear(d);
    assert ActiveSessions(d) == Swept(d) by { hide Owing; hide IsSweepTaken; }
    assert Sessions(d') == {} && Provisioning(d') == {} && ActiveSessions(d') == {};
    hide Sessions; hide Provisioning; hide ActiveSessions; hide Swept;
  }

  lemma ClearTurn(d: Daemon)
    requires DaemonInv(d) && CanStep(d, ClearRegistry)
    ensures CountsOk(DoClear(d))
  {
    hide CountsOk; hide PhaseOk; hide Inv; hide ReadyToClear; hide DoClear; hide Owing; hide IsSweepTaken; hide RegistryFree;
    hide Runs.IsSwept;
    forall id | id in d.slots
      ensures (d.slots[id].entry.Some? <==> IsSweepTaken(d.slots[id])) && !Owing(d.slots[id]) && !d.slots[id].reserved
    {
      SweptSlot(d.phase, id, d.slots[id]);
      SweptIdle(d.slots[id], d.maxConnections);
    }
    ClearCounts(d);
  }

  lemma TurnCounts(d: Daemon, t: Turn)
    requires DaemonInv(d) && CanStep(d, t)
    ensures CountsOk(After(d, t))
  {
    hide SessionsOk; hide PhasesOk; hide Enabled; hide RegistryFree; hide Allowed;
    match t
    case Reserve(_, _, _, _, _, _) => hide After; hide CanStep; hide CountsOk; ReserveCounts(d, t);
    case Act(id, a) => hide CountsOk; hide DoAct; hide DaemonInv; ActCounts(d, id, a);
    case BeginSweep => hide CountsOk; hide DoBeginSweep; hide DaemonInv; SweepCounts(d);
    case Visit(id) => PendingIdle(d, id); hide CountsOk; hide DoVisit; VisitCounts(d, id);
    case ClearRegistry => hide CountsOk; hide DoClear; hide DaemonInv; ClearTurn(d);
    case _ => SameSlots(d, After(d, t)); hide Sessions; hide Provisioning; hide ActiveSessions; hide Swept;
  }

  /** Every turn keeps the daemon's invariant. */
  lemma TurnKeeps(d: Daemon, t: Turn)
    requires DaemonInv(d) && CanStep(d, t)
    ensures DaemonInv(After(d, t))
  {
    TurnSessions(d, t);
    TurnPhases(d, t);
    TurnCounts(d, t);
    hide SessionsOk; hide PhasesOk; hide CountsOk; hide Enabled; hide RegistryFree; hide Next; hide Sessions; hide Provisioning;
  }
}
