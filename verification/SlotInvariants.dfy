/** What every action of a session keeps. */
module SlotInvariants {
  import opened Basics
  import opened Config
  import opened Slots

  ghost predicate IsCreate(op: Op) { op.StartingFirst? || op.Unreserving? || op.Publishing? }

  ghost predicate IsRunning(s: Slot) { s.entry.Some? && s.entry.value.lifecycle == Running }

  ghost predicate IsAt(s: Slot, h: Handle, p: Place) { h < |s.runtimes| && s.runtimes[h].place == p }

  /** The listener's number was made the gate's value: it was the first listener or was cut over to. */
  ghost predicate IsCommitted(s: Slot, h: Handle) {
    h < |s.runtimes| && 1 <= s.runtimes[h].generation <= |s.committed|
    && s.committed[s.runtimes[h].generation - 1] == h
  }

  // ----- listeners -----

  /** A container holds the listener exactly as its place says; `Gone` listeners were told to stop. */
  ghost predicate PlaceOk(s: Slot, h: Handle)
    requires h < |s.runtimes|
  {
    match s.runtimes[h].place
    case Held(op) => op in s.ops && h in Owned(s.ops[op])
    case Current => s.entry.Some? && s.entry.value.current == Some(h)
    case Retired => s.entry.Some? && h in s.entry.value.retired
    case Gone => s.runtimes[h].cancelled && s.runtimes[h].aborted
  }

  /** A replacement not cut over to. Its number is above the gate; it cannot linger beside a live session. */
  ghost predicate Stray(accepting: bool, s: Slot, h: Handle)
    requires h < |s.runtimes|
  {
    && |s.committed| < s.runtimes[h].generation
    && (accepting && IsRunning(s) ==>
          var p := s.runtimes[h].place;
          p.Held? && s.lock == Some(p.op) && ReloadingAt(s, p.op) && s.ops[p.op].reload.CuttingOver?)
  }

  /** The policy generations of one listener. */
  ghost predicate PoliciesOk(seed: Seed, r: Runtime) {
    && r.gens != []
    && (forall i :: 0 <= i < |r.gens| ==> r.gens[i].seed == seed)
    && |r.tracked| <= MAX_POLICY_GENERATIONS
    && (forall i :: 0 <= i < |r.tracked| ==> r.tracked[i] < |r.gens|)
    && Selected(r) in r.tracked
    && (r.accept.Pinned? ==> r.accept.gen in r.tracked)
  }

  ghost predicate RuntimeOk(accepting: bool, s: Slot, h: Handle) {
    h < |s.runtimes| ==>
      var r := s.runtimes[h];
      && PlaceOk(s, h)
      && (IsCommitted(s, h) || Stray(accepting, s, h))
      && (r.retired ==> IsCommitted(s, h))
      && (r.task == Checked(true) ==> r.retired)
      && (accepting && r.place.Gone? ==> HasExited(r))
      && PoliciesOk(s.seed, r)
  }

  // ----- registry entry -----

  ghost predicate CurrentOk(s: Slot, x: Session, h: Handle) {
    && IsAt(s, h, Current)
    && |s.committed| > 0 && s.committed[|s.committed| - 1] == h
    && s.runtimes[h].socket == x.socket
    && s.runtimes[h].gens != []
    && s.runtimes[h].gens[|s.runtimes[h].gens| - 1] == Generation(x.config, x.secrets, s.seed)
  }

  ghost predicate RetiredOk(s: Slot, h: Handle) {
    IsAt(s, h, Retired) && IsCommitted(s, h) && s.runtimes[h].generation < |s.committed|
  }

  ghost predicate EntryOk(s: Slot) {
    s.entry.Some? ==>
      var x := s.entry.value;
      && s.born && !s.reserved
      && (x.lifecycle == Running <==> x.current.Some?)
      && (x.lifecycle == Stopping ==> x.retired == {})
      && |x.retired| <= MAX_RETIRED_LISTENERS && |x.retired| <= x.draining
      && x.listenerGeneration == |s.committed|
      && x.config.persistent == s.persistent
      && (x.current.Some? ==> CurrentOk(s, x, x.current.value))
      && (forall h :: h in x.retired ==> RetiredOk(s, h))
  }

  // ----- operations -----

  /** An exit event was sent by the one committed listener with that number, after it had exited. */
  ghost predicate EventOk(s: Slot, e: Event) {
    IsCommitted(s, e.sender) && s.runtimes[e.sender].generation == e.generation && HasExited(s.runtimes[e.sender])
  }

  ghost predicate KindOk(s: Slot, kind: EndKind) { kind.Exit? ==> EventOk(s, kind.event) }

  /** Nothing the reload captured has changed while it holds the reload lock. */
  ghost predicate CapturedOk(s: Slot, got: Captured) {
    && got.persistent == s.persistent
    && got.socket == got.core.socket && got.secrets == got.core.secrets
    && (s.entry.Some? ==> CoreOf(s.entry.value, s.gate) == got.core)
  }

  ghost predicate CandidateOk(s: Slot, got: Captured, candidate: Candidate) {
    CapturedOk(s, got) && candidate.config.persistent == s.persistent
  }

  ghost predicate RoomToRetire(s: Slot) { s.entry.Some? ==> |s.entry.value.retired| < MAX_RETIRED_LISTENERS }

  ghost predicate PriorOk(s: Slot, op: OpId, prior: Handle) {
    && IsRunning(s) && IsAt(s, prior, Held(op)) && IsCommitted(s, prior)
    && s.runtimes[prior].generation == |s.committed| - 1
    && s.runtimes[prior].retired
    && RoomToRetire(s)
  }

  ghost predicate FirstOk(s: Slot, op: OpId, c: Op)
    requires c.Publishing?
  {
    && |s.runtimes| == 1 && IsAt(s, c.first, Held(op))
    && s.committed == [c.first] && s.runtimes[c.first].generation == 1
    && s.runtimes[c.first].gens == [Generation(c.config, c.secrets, s.seed)]
    && c.config.persistent == s.persistent
  }

  ghost predicate ReloadOk(s: Slot, op: OpId, pc: ReloadPc) {
    match pc
    case Preparing => true
    case Reading(got) => CapturedOk(s, got)
    case Comparing(got, candidate) => CandidateOk(s, got, candidate)
    case Selecting(got, candidate) => CandidateOk(s, got, candidate) && candidate.path == got.socket
    case Planning(got, candidate) => CandidateOk(s, got, candidate)
    case Starting(got, candidate, next) =>
      CandidateOk(s, got, candidate) && RoomToRetire(s) && next == |s.committed| + 1 <= U64_MAX
    case CuttingOver(got, candidate, next, h) =>
      && CandidateOk(s, got, candidate) && RoomToRetire(s) && next == |s.committed| + 1 <= U64_MAX
      && IsAt(s, h, Held(op)) && s.runtimes[h].generation == next && s.runtimes[h].socket == candidate.path
      && s.runtimes[h].gens == [Generation(candidate.config, candidate.secrets, s.seed)]
    case StoringGate(prior) => PriorOk(s, op, prior) && s.gate == |s.committed| - 1
    case Retiring(prior) => PriorOk(s, op, prior)
    case Discarding(got, h) => CapturedOk(s, got) && IsAt(s, h, Held(op))
  }

  ghost predicate OpOk(s: Slot, op: OpId) {
    op in s.ops ==>
      && (HoldsLock(s.ops[op]) ==> s.lock == Some(op))
      && (IsCreate(s.ops[op]) ==> op == s.creator && !s.born && s.entry.None? && s.reserved)
      && match s.ops[op]
         case StartingFirst(config, _, _) =>
           s.runtimes == [] && s.committed == [] && config.persistent == s.persistent
         case Unreserving => true
         case Publishing(_, _, _, _) => FirstOk(s, op, s.ops[op])
         case Locating(goal) => goal.ToEnd? ==> KindOk(s, goal.kind)
         case AwaitingLock(goal) => s.born && (goal.ToEnd? ==> KindOk(s, goal.kind))
         case Ending(kind, end) =>
           && s.born && KindOk(s, kind)
           && (kind.Sweep? ==> end.Deciding? || end.Shutting?)
           && (!end.Deciding? ==> !IsRunning(s))
           && (end.Counting? ==> s.entry.None?)
           && (end.Shutting? ==> forall h :: h in end.owned ==> IsAt(s, h, Held(op)))
         case Reloading(pc) => s.born && ReloadOk(s, op, pc)
  }

  // ----- lock, gate, connections -----

  ghost predicate CommittedOk(s: Slot, i: nat) {
    i < |s.committed| ==> s.committed[i] < |s.runtimes| && s.runtimes[s.committed[i]].generation == i + 1
  }

  ghost predicate GateOk(s: Slot) {
    && (s.lock.Some? ==> s.born && s.lock.value in s.ops && HoldsLock(s.ops[s.lock.value]))
    && (s.born ==> s.committed != []) && (s.committed == [] ==> s.runtimes == [])
    && |s.committed| <= U64_MAX
    && (forall i: nat :: CommittedOk(s, i))
    && (if s.committed == [] then s.gate == 1
        else if RegistryHeld(s) then s.gate <= |s.committed| && (s.ops[s.lock.value].reload.Retiring? ==> s.gate == |s.committed|)
        else s.gate == |s.committed|)
  }

  ghost predicate ConnOk(s: Slot, c: ConnId) {
    c in s.conns ==>
      s.conns[c].runtime < |s.runtimes| && s.conns[c].gen in s.runtimes[s.conns[c].runtime].tracked
  }

  /** The invariant, with nothing said about operation `but`, whose step is being taken. */
  ghost predicate InvBut(accepting: bool, limit: nat, s: Slot, but: OpId) {
    && (forall h: nat :: RuntimeOk(accepting, s, h))
    && EntryOk(s)
    && (forall op: nat :: op != but ==> OpOk(s, op))
    && GateOk(s)
    && (forall e :: e in s.events ==> EventOk(s, e))
    && (forall c: nat :: ConnOk(s, c))
    && s.permits + |s.conns| == limit
  }

  ghost predicate Inv(accepting: bool, limit: nat, s: Slot) {
    && (forall op: nat :: OpOk(s, op))
    && InvBut(accepting, limit, s, 0)
  }
}
