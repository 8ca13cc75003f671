/**
 The session registry as the daemon keeps it (src/control/session.rs:76-366, src/control/reload.rs:76-284): a map, a
 set and a counter that critical sections update in place. The ghost field `slots` holds the sessions of the state
 machine in `Slots`; every section takes it along its own step, and the registry shows exactly what it may see of it.
 */
module SessionRegistry {
  import opened Basics
  import opened Config
  import opened Slots
  import opened SessionViews
  import opened SessionTables
  import Runs = SessionRuns

  datatype Reservation = Reserved | ShuttingDown | AtCapacity | Internal

  class SessionManager {
    const maxSessions: nat
    const maxConnections: nat
    var accepting: bool
    var sessions: map<SessionId, Session>
    var provisioning: set<SessionId>
    var active: int
    // what the registry reads of the listeners: their numbers, which of them have finished, and the gates it stores to
    var numbers: map<SessionId, seq<nat>>
    var finished: map<SessionId, set<Handle>>
    var gates: map<SessionId, nat>
    ghost var slots: SlotMap

    ghost function View(): Tables
      reads this
    {
      Tables(sessions, provisioning, numbers, finished, gates)
    }

    ghost predicate Valid()
      reads this
    {
      Consistent(maxSessions, active, View(), slots)
    }

    constructor (maxSessions: nat, maxConnections: nat)
      ensures Valid() && this.maxSessions == maxSessions && this.maxConnections == maxConnections
      ensures accepting && sessions == map[] && provisioning == {} && active == 0 && slots == map[]
    {
      this.maxSessions, this.maxConnections := maxSessions, maxConnections;
      accepting, sessions, provisioning, active := true, map[], {}, 0;
      numbers, finished, gates, slots := map[], map[], map[], map[];
      NoneDue(map[]);
    }

    /** First section of create. An id that is not in use was never drawn before. */
    method Reserve(
      id: SessionId, ghost op: OpId, ghost config: SessionConfig, ghost secrets: Secrets, ghost source: Option<string>,
      ghost seed: Seed)
      returns (r: Reservation)
      requires Valid() && (id in slots ==> id in sessions || id in provisioning)
      modifies this`provisioning, this`numbers, this`finished, this`gates, this`slots
      ensures Valid()
      ensures r == Reserved <==> accepting && |sessions| + |old(provisioning)| < maxSessions && id !in sessions && id !in old(provisioning)
      ensures r == ShuttingDown <==> !accepting
      ensures r == AtCapacity <==> accepting && |sessions| + |old(provisioning)| >= maxSessions
      ensures provisioning == old(provisioning) + if r == Reserved then {id} else {}
      ensures slots == if r == Reserved then old(slots)[id := Runs.NewSlot(maxConnections, op, config, secrets, source, seed)]
                       else old(slots)
    {
      hide Consistent; hide SeenOf; hide Runs.NewSlot; hide Put; hide CountingOps; hide Coupled;
      assert id in slots ==> id in sessions || id in provisioning;
      if !accepting { return ShuttingDown; }
      if |sessions| + |provisioning| >= maxSessions { return AtCapacity; }
      if id in sessions || id in provisioning { return Internal; }
      ghost var s := Runs.NewSlot(maxConnections, op, config, secrets, source, seed);
      NewSeen(maxConnections, op, config, secrets, source, seed);
      NewConsistent(maxSessions, active, View(), slots, id, s);
      provisioning := provisioning + {id};
      numbers, finished, gates := numbers[id := []], finished[id := {}], gates[id := 1];
      slots := slots[id := s];
      return Reserved;
    }

    /** A failed create gives its reservation back. */
    method Unreserve(id: SessionId, ghost op: OpId)
      requires Valid() && id in slots && op in slots[id].ops && slots[id].ops[op].Unreserving?
      modifies this`provisioning, this`slots
      ensures Valid() && provisioning == old(provisioning) - {id}
      ensures slots == old(slots)[id := Return(old(slots)[id], op).(reserved := false)]
    {
      hide Consistent; hide SeenOf; hide Return; hide CountingOps; hide Numbers; hide FinishedListeners;
      ghost var s' := Return(slots[id], op).(reserved := false);
      Known(id);
      UnreserveSeen(slots[id], op);
      Section(id, s');
      provisioning := provisioning - {id};
      slots := slots[id := s'];
    }

    lemma Registered(id: SessionId)
      requires Valid() && id in sessions
      ensures id in slots
    {
    }

    /** What the registry shows of session `id`. */
    lemma Known(id: SessionId)
      requires Valid() && id in slots
      ensures var s := slots[id];
              && (id in sessions <==> s.entry.Some?) && (id in sessions ==> sessions[id] == s.entry.value)
              && (id in provisioning <==> s.reserved) && !(s.entry.Some? && s.reserved)
              && id in numbers && numbers[id] == Numbers(s) && id in finished && finished[id] == FinishedListeners(s)
              && id in gates && gates[id] == s.gate
              && SeenOf(s).entry == s.entry && SeenOf(s).reserved == s.reserved && SeenOf(s).counting == CountingOps(s)
              && SeenOf(s).numbers == Numbers(s) && SeenOf(s).finished == FinishedListeners(s) && SeenOf(s).gate == s.gate
    {
      CoupledAt(View(), slots, id);
      SeenFields(slots[id]);
      hide SeenOf; hide Numbers; hide FinishedListeners; hide CountingOps; hide Coupled;
    }

    /** What a section of session `id` must write. */
    lemma Section(id: SessionId, s': Slot)
      requires Valid() && id in slots && Places(SeenOf(s')) <= 1 && Places(SeenOf(s')) <= Places(SeenOf(slots[id]))
      ensures var v, v', p := SeenOf(slots[id]), SeenOf(s'), Put(View(), id, SeenOf(s'));
              && Consistent(maxSessions, active + Weight(v') - Weight(v), p, slots[id := s'])
              && (v'.entry == v.entry ==> p.sessions == sessions) && (v'.reserved == v.reserved ==> p.provisioning == provisioning)
              && (v'.numbers == v.numbers ==> p.numbers == numbers) && (v'.finished == v.finished ==> p.finished == finished)
              && (v'.gate == v.gate ==> p.gates == gates)
    {
      PutConsistent(maxSessions, active, View(), slots, id, s');
      assert Coupled(View(), slots);
      CoupledAt(View(), slots, id);
      PutFrom(View(), id, SeenOf(slots[id]), SeenOf(s'));
      hide *;
    }

    /** An operation that still has to decrement the gauge is counted. */
    lemma DueIsCounted(id: SessionId, op: OpId)
      requires Valid() && id in slots && EndingAt(slots[id], op) && slots[id].ops[op].end.Counting?
      ensures active > 0 && Consistent(maxSessions, active - 1, View(), slots[id := Return(slots[id], op)])
    {
      hide Consistent; hide SeenOf; hide Return; hide Numbers; hide FinishedListeners; hide CountingOps;
      DueGauge(maxSessions, active, View(), slots, id, op);
      CountSeen(slots[id], op);
      Known(id);
      Section(id, Return(slots[id], op));
    }

    /** A section that changes nothing but the entry, from one to another. */
    lemma EntrySection(id: SessionId, s': Slot, x: Session)
      requires Valid() && id in sessions && id in slots && SeenOf(s') == SeenOf(slots[id]).(entry := Some(x))
      ensures Consistent(maxSessions, active, View().(sessions := sessions[id := x]), slots[id := s'])
    {
      Known(id);
      hide Consistent; hide SeenOf; hide Numbers; hide FinishedListeners; hide CountingOps;
      Section(id, s');
    }

    /** A section that changes nothing. */
    lemma EmptySection(id: SessionId, s': Slot)
      requires Valid() && id in slots && SeenOf(s') == SeenOf(slots[id])
      ensures Consistent(maxSessions, active, View(), slots[id := s'])
    {
      hide Consistent; hide SeenOf; hide Put; hide WithEntry; hide Numbers; hide FinishedListeners; hide CountingOps;
      Known(id);
      Section(id, s');
    }

    /** The first listener has started; its handle is the next free one. */
    method StartFirst(id: SessionId, path: string, ghost op: OpId) returns (h: Handle)
      requires Valid() && id in slots && op in slots[id].ops && slots[id].ops[op].StartingFirst?
      modifies this`numbers, this`slots
      ensures Valid() && id in old(numbers) && h == |old(numbers)[id]| && numbers == old(numbers)[id := old(numbers)[id] + [1]]
      ensures slots == old(slots)[id := DoStartFirst(old(slots)[id], op, Some(path))]
    {
      hide Consistent; hide SeenOf;
      ghost var s := slots[id];
      Known(id);
      StartSeen(s, DoStartFirst(s, op, Some(path)), op, DoStartFirst(s, op, Some(path)).runtimes[|s.runtimes|]);
      hide DoStartFirst; hide CountingOps; hide FinishedListeners;
      Section(id, DoStartFirst(s, op, Some(path)));
      h := |numbers[id]|;
      numbers := numbers[id := numbers[id] + [1]];
      slots := slots[id := DoStartFirst(s, op, Some(path))];
    }

    /** The replacement of a reload that moves to a new socket has started, with the number that the reload chose. */
    method StartReplacement(id: SessionId, next: nat, ghost op: OpId) returns (h: Handle)
      requires Valid() && id in slots && ReloadingAt(slots[id], op) && slots[id].ops[op].reload.Starting?
      requires next == slots[id].ops[op].reload.next
      modifies this`numbers, this`slots
      ensures Valid() && id in old(numbers) && h == |old(numbers)[id]| && numbers == old(numbers)[id := old(numbers)[id] + [next]]
      ensures slots == old(slots)[id := DoStartReplacement(old(slots)[id], op, true)]
    {
      hide Consistent; hide SeenOf;
      ghost var s := slots[id];
      Known(id);
      StartSeen(s, DoStartReplacement(s, op, true), op, DoStartReplacement(s, op, true).runtimes[|s.runtimes|]);
      hide DoStartReplacement; hide CountingOps; hide FinishedListeners;
      Section(id, DoStartReplacement(s, op, true));
      h := |numbers[id]|;
      numbers := numbers[id := numbers[id] + [next]];
      slots := slots[id := DoStartReplacement(s, op, true)];
    }

    /** The task of a listener has ended. */
    method ListenerFinished(id: SessionId, h: Handle)
      requires Valid() && id in slots && ListenerEnabled(slots[id], TaskEnd(h))
      modifies this`finished, this`slots
      ensures Valid() && id in old(finished) && finished == old(finished)[id := old(finished)[id] + {h}]
      ensures slots == old(slots)[id := ListenerNext(old(slots)[id], TaskEnd(h))]
    {
      hide Consistent; hide SeenOf; hide ListenerNext; hide ListenerEnabled; hide Numbers; hide FinishedListeners; hide CountingOps;
      Known(id);
      FinishSeen(slots[id], h);
      Section(id, ListenerNext(slots[id], TaskEnd(h)));
      finished := finished[id := finished[id] + {h}];
      slots := slots[id := ListenerNext(slots[id], TaskEnd(h))];
    }

    /** Whatever else an operation, a listener or a connection does leaves the registry alone. */
    ghost method Meanwhile(id: SessionId, a: Action)
      requires Valid() && id in slots && Enabled(accepting, slots[id], a) && !IsSeen(a)
      modifies this`slots
      ensures Valid() && slots == old(slots)[id := Next(accepting, old(slots)[id], a)]
    {
      hide Consistent; hide SeenOf; hide Next; hide Enabled; hide IsSeen; hide Numbers; hide FinishedListeners; hide CountingOps;
      Unseen(accepting, slots[id], a);
      EmptySection(id, Next(accepting, slots[id], a));
      slots := slots[id := Next(accepting, slots[id], a)];
    }

    /** Last section of create: the session is registered, or was overtaken by a shutdown. */
    method Publish(
      id: SessionId, config: SessionConfig, secrets: Secrets, source: Option<string>, socket: string, first: Handle, ghost op: OpId)
      returns (ok: bool)
      requires Valid() && id in slots && op in slots[id].ops && slots[id].ops[op] == Publishing(config, secrets, source, first)
      requires first < |slots[id].runtimes| && socket == slots[id].runtimes[first].socket && (accepting ==> id in provisioning)
      modifies this`sessions, this`provisioning, this`active, this`slots
      ensures Valid() && ok == accepting && provisioning == old(provisioning) - {id}
      ensures sessions == if ok then old(sessions)[id := NewEntry(config, secrets, source, socket, first)] else old(sessions)
      ensures active == old(active) + if ok then 1 else 0
      ensures slots == old(slots)[id := DoPublish(accepting, old(slots)[id], op)]
    {
      hide Consistent; hide SeenOf; hide DoPublish; hide Numbers; hide FinishedListeners; hide CountingOps; hide NewEntry;
      ghost var s' := DoPublish(accepting, slots[id], op);
      Known(id);
      PublishSeen(accepting, slots[id], op);
      Section(id, s');
      provisioning, slots := provisioning - {id}, slots[id := s'];
      if !accepting { return false; }
      sessions := sessions[id := NewEntry(config, secrets, source, socket, first)];
      active := active + 1;
      return true;
    }

    /**
     The section of stop, remove, runtime_exit and shutdown_all that ends a session: it takes all listeners, or finds
     nothing to do. A late exit event drops its own listener from the retired ones.
     */
    method Decide(id: SessionId, kind: EndKind, ghost op: OpId) returns (taken: Option<set<Handle>>)
      requires Valid() && id in slots && EndingAt(slots[id], op) && slots[id].ops[op] == Ending(kind, Deciding)
      modifies this`sessions, this`slots
      ensures Valid() && slots == old(slots)[id := DoDecide(old(slots)[id], op)]
      ensures if id in old(sessions) then
                && id in numbers
                && sessions == old(sessions)[id := Decided(old(sessions)[id], kind, numbers[id])]
                && taken == TakenBy(old(sessions)[id], kind)
              else sessions == old(sessions) && taken.None?
      ensures taken.Some? ==> op in slots[id].ops && taken.value == Owned(slots[id].ops[op])
    {
      hide Consistent; hide SeenOf; hide DoDecide; hide Numbers; hide FinishedListeners; hide CountingOps;
      hide AlreadyEnding; hide Ended; hide AllListeners; hide WithRetired; hide Carrying;
      ghost var s' := DoDecide(slots[id], op);
      Known(id);
      DecideSeen(slots[id], op);
      if id !in sessions {
        EmptySection(id, s');
        slots := slots[id := s'];
        return None;
      }
      var x := sessions[id];
      EntrySection(id, s', Decided(x, kind, numbers[id]));
      slots := slots[id := s'];
      if IsLate(x, kind) {
        var kept := RetainOthers(x.retired, numbers[id], kind.event.generation);
        KeptAre(x, numbers[id], kind.event.generation);
        sessions := sessions[id := WithRetired(x, kept)];
        return None;
      }
      if AlreadyEnding(x, kind) {
        assert sessions[id := x] == sessions;
        return None;
      }
      sessions := sessions[id := Ended(x)];
      return Some(AllListeners(x));
    }

    /** Removal after the shutdown of the listeners; the caller then decrements the gauge. */
    method Erase(id: SessionId, ghost op: OpId) returns (removed: bool)
      requires Valid() && id in slots && EndingAt(slots[id], op) && slots[id].ops[op].end.Erasing?
      modifies this`sessions, this`slots
      ensures Valid() && removed == (id in old(sessions)) && sessions == old(sessions) - {id}
      ensures slots == old(slots)[id := DoErase(old(slots)[id], op)]
    {
      hide Consistent; hide SeenOf; hide DoErase; hide Numbers; hide FinishedListeners;
      Known(id);
      assert op !in CountingOps(slots[id]);
      hide CountingOps;
      EraseSeen(slots[id], op);
      Section(id, DoErase(slots[id], op));
      removed := id in sessions;
      slots := slots[id := DoErase(slots[id], op)];
      sessions := sessions - {id};
    }

    method SessionStopped(id: SessionId, ghost op: OpId)
      requires Valid() && id in slots && EndingAt(slots[id], op) && slots[id].ops[op].end.Counting?
      modifies this`active, this`slots
      ensures Valid() && active == old(active) - 1 && 0 <= active
      ensures slots == old(slots)[id := Return(old(slots)[id], op)]
    {
      hide Consistent; hide Return;
      DueIsCounted(id, op);
      active := active - 1;
      slots := slots[id := Return(slots[id], op)];
    }

    /** The end of stop, remove and runtime_exit: a session that is still registered is removed and counted down once. */
    method RemoveSession(id: SessionId, ghost op: OpId)
      requires Valid() && id in slots && EndingAt(slots[id], op) && slots[id].ops[op].end.Erasing?
      modifies this`sessions, this`active, this`slots
      ensures Valid() && sessions == old(sessions) - {id} && active == old(active) - One(id in old(sessions))
      ensures slots == old(slots)[id := var s := DoErase(old(slots)[id], op); if id in old(sessions) then Return(s, op) else s]
    {
      hide Consistent; hide Coupled; hide Due; hide SeenOf; hide Return;
      Known(id);
      var removed := Erase(id, op);
      ghost var s := DoErase(old(slots)[id], op);
      if removed {
        assert old(slots)[id := s][id := Return(s, op)] == old(slots)[id := Return(s, op)];
        SessionStopped(id, op);
      }
    }

    /** First section of a reload: finished listeners are dropped from the retired ones. */
    method PrepareReload(id: SessionId, ghost op: OpId)
      requires Valid() && id in slots && ReloadEnabled(slots[id], Prepare(op))
      modifies this`sessions, this`slots
      ensures Valid() && slots == old(slots)[id := DoPrepare(accepting, old(slots)[id], op)] && id in finished
      ensures sessions == if id in old(sessions)
                          then old(sessions)[id := WithRetired(old(sessions)[id], old(sessions)[id].retired - finished[id])]
                          else old(sessions)
    {
      hide Consistent; hide SeenOf; hide DoPrepare; hide Numbers; hide FinishedListeners; hide CountingOps; hide WithRetired;
      hide Counted; hide Pruned;
      Known(id);
      PrepareSeen(accepting, slots[id], op);
      if id !in sessions {
        EmptySection(id, DoPrepare(accepting, slots[id], op));
        slots := slots[id := DoPrepare(accepting, slots[id], op)];
      } else {
        var x := sessions[id];
        PruneSeen(slots[id]);
        EntrySection(id, DoPrepare(accepting, slots[id], op), WithRetired(x, x.retired - finished[id]));
        slots := slots[id := DoPrepare(accepting, slots[id], op)];
        sessions := sessions[id := WithRetired(x, x.retired - finished[id])];
      }
    }

    /** The section of a reload that keeps its socket; `replaced` is what `replace_generation` answers. */
    method CommitSelection(id: SessionId, candidate: Candidate, replaced: bool, ghost op: OpId) returns (done: bool)
      requires Valid() && id in slots && ReloadEnabled(slots[id], Select(op)) && candidate == slots[id].ops[op].reload.candidate
      requires var s := slots[id];
               s.entry.Some? && s.entry.value.current.Some? ==>
                 (replaced <==> |Forget(s, s.entry.value.current.value).runtimes[s.entry.value.current.value].tracked| < MAX_POLICY_GENERATIONS)
      modifies this`sessions, this`slots
      ensures Valid() && slots == old(slots)[id := DoSelect(accepting, old(slots)[id], op)]
      ensures done == (accepting && id in old(sessions) && old(sessions)[id].current.Some? && replaced)
      ensures sessions == if done then old(sessions)[id := Reselected(old(sessions)[id], candidate)] else old(sessions)
      ensures op in slots[id].answers && (slots[id].answers[op] == Reloaded <==> done)
    {
      hide Consistent; hide SeenOf; hide Numbers; hide FinishedListeners; hide CountingOps; hide Reselected;
      Known(id);
      SelectSeen(accepting, slots[id], op);
      SelectAnswer(accepting, slots[id], op);
      hide DoSelect; hide Forget;
      ghost var s' := DoSelect(accepting, slots[id], op);
      done := accepting && id in sessions && sessions[id].current.Some? && replaced;
      if done {
        EntrySection(id, s', Reselected(sessions[id], candidate));
        sessions := sessions[id := Reselected(sessions[id], candidate)];
      } else {
        EmptySection(id, s');
      }
      slots := slots[id := s'];
    }

    /** The section of a reload that plans a new listener: it chooses the number or refuses. */
    method PlanReload(id: SessionId, ghost op: OpId) returns (next: Option<nat>)
      requires Valid() && id in slots && ReloadEnabled(slots[id], Plan(op))
      modifies this`sessions, this`slots
      ensures Valid() && slots == old(slots)[id := DoPlan(accepting, old(slots)[id], op)]
      ensures next.Some? ==>
                && ReloadingAt(slots[id], op) && slots[id].ops[op].reload.Starting? && slots[id].ops[op].reload.next == next.value
                && slots[id].ops[op].reload.candidate == old(slots)[id].ops[op].reload.candidate
      ensures next.None? ==> op in slots[id].answers && slots[id].answers[op] == Failed
    {
      hide Consistent; hide SeenOf; hide Numbers; hide FinishedListeners; hide CountingOps; hide Drop; hide Reply;
      Known(id);
      ghost var s := slots[id];
      PlanSeen(accepting, s, op);
      PlanAnswer(accepting, s, op);
      hide DoPlan;
      if !accepting || id !in sessions {
        EmptySection(id, DoPlan(accepting, s, op));
        slots := slots[id := DoPlan(accepting, s, op)];
        return None;
      }
      PrunedPlain(s);
      PlanCarriesOn(accepting, s, op);
      hide Pruned;
      var x := sessions[id].(retired := sessions[id].retired - finished[id]);
      EntrySection(id, DoPlan(accepting, s, op), x);
      slots := slots[id := DoPlan(accepting, s, op)];
      sessions := sessions[id := x];
      if x.current.None? || x.listenerGeneration >= U64_MAX || |x.retired| >= MAX_RETIRED_LISTENERS { return None; }
      return Some(x.listenerGeneration + 1);
    }

    /**
     The last section of a reload that moves to a new socket: the replacement becomes current, the gate moves to its
     number and the previous listener is retired. `None` means that the session went away meanwhile.
     */
    method Cutover(id: SessionId, candidate: Candidate, next: nat, replacement: Handle, ghost op: OpId)
      returns (prior: Option<Handle>)
      requires Valid() && id in slots && ReloadEnabled(slots[id], CutOver(op))
      requires var c := slots[id].ops[op].reload; c.candidate == candidate && c.next == next && c.replacement == replacement
      modifies this`sessions, this`gates, this`slots
      ensures Valid()
      ensures prior == if accepting && id in old(sessions) && old(sessions)[id].lifecycle == Running
                       then old(sessions)[id].current else None
      ensures match prior
              case Some(h) =>
                && sessions == old(sessions)[id := CutEntry(old(sessions)[id], candidate, next, replacement, h)]
                && gates == old(gates)[id := next]
                && CanCut(true, old(slots)[id]) && slots == old(slots)[id := CutSlot(old(slots)[id], op)]
              case None =>
                && sessions == old(sessions) && gates == old(gates)
                && slots == old(slots)[id := DoCutOver(accepting, old(slots)[id], op)]
    {
      hide Consistent; hide SeenOf; hide Numbers; hide FinishedListeners; hide CountingOps; hide DoCutOver; hide CutSlot;
      hide CutOverEntry; hide WithRetired; hide CutEntry;
      Known(id);
      ghost var s := slots[id];
      if !accepting || id !in sessions || sessions[id].lifecycle == Stopping || sessions[id].current.None? {
        CutRefusedSeen(accepting, s, op);
        EmptySection(id, DoCutOver(accepting, s, op));
        slots := slots[id := DoCutOver(accepting, s, op)];
        return None;
      }
      var x := sessions[id];
      var h := x.current.value;
      CutSection(id, op);
      CutInTwo(x, candidate, next, replacement, h);
      slots := slots[id := CutSlot(s, op)];
      var y := CutOverEntry(x, candidate, next, replacement);
      sessions := sessions[id := y];
      gates := gates[id := next];
      sessions := sessions[id := WithRetired(y, y.retired + {h})];
      assert sessions == old(sessions)[id := WithRetired(y, y.retired + {h})];
      return Some(h);
    }

    lemma CutSection(id: SessionId, op: OpId)
      requires Valid() && id in slots && ReloadEnabled(slots[id], CutOver(op)) && CanCut(true, slots[id])
      ensures var s, c := slots[id], slots[id].ops[op].reload;
              var x := CutEntry(s.entry.value, c.candidate, c.next, c.replacement, s.entry.value.current.value);
              Consistent(maxSessions, active, View().(sessions := sessions[id := x], gates := gates[id := c.next]), slots[id := CutSlot(s, op)])
    {
      hide Consistent; hide SeenOf; hide Numbers; hide FinishedListeners; hide CountingOps; hide CutSlot; hide CutEntry;
      Known(id);
      CutSeen(slots[id], op);
      Section(id, CutSlot(slots[id], op));
    }

    /** list: drops finished listeners from every session. */
    method List()
      requires Valid()
      modifies this`sessions, this`slots
      ensures Valid() && sessions == PrunedSessions(old(sessions), finished, old(sessions).Keys)
      ensures slots == PrunedSlots(old(slots), old(sessions).Keys)
    {
      hide PrunedSessions; hide PrunedSlots; hide WithRetired; hide Consistent;
      ghost var s0, p0 := sessions, slots;
      PrunedNone(s0, finished, p0);
      var left := sessions.Keys;
      ghost var done: set<SessionId> := {};
      while left != {}
        invariant done !! left && done + left == s0.Keys && Valid()
        invariant sessions == PrunedSessions(s0, finished, done) && slots == PrunedSlots(p0, done)
      {
        var id :| id in left;
        PrunedMore(s0, finished, p0, done, id);
        PruneSession(id);
        left, done := left - {id}, done + {id};
      }
    }

    method PruneSession(id: SessionId)
      requires Valid() && id in sessions
      modifies this`sessions, this`slots
      ensures Valid() && id in finished && id in old(slots) && slots == old(slots)[id := PrunedSlot(old(slots)[id])]
      ensures sessions == old(sessions)[id := WithRetired(old(sessions)[id], old(sessions)[id].retired - finished[id])]
    {
      hide WithRetired; hide SeenOf; hide Counted; hide Pruned; hide Numbers; hide FinishedListeners; hide CountingOps;
      Registered(id);
      hide Consistent;
      Known(id);
      PruneSeen(slots[id]);
      var x := sessions[id];
      EntrySection(id, PrunedSlot(slots[id]), WithRetired(x, x.retired - finished[id]));
      slots := slots[id := PrunedSlot(slots[id])];
      sessions := sessions[id := WithRetired(x, x.retired - finished[id])];
    }

    method RejectNewSessions()
      requires Valid()
      modifies this`accepting
      ensures Valid() && !accepting
    {
      accepting := false;
    }

    /** First section of shutdown_all. */
    method BeginShutdown() returns (ids: set<SessionId>)
      requires Valid()
      modifies this`accepting, this`provisioning, this`slots
      ensures Valid() && ids == sessions.Keys && provisioning == {} && !accepting && slots == ForgottenSlots(old(slots))
    {
      hide Consistent; hide ForgottenSlots;
      ForgottenConsistent(maxSessions, active, View(), slots);
      accepting := false;
      provisioning := {};
      slots := ForgottenSlots(slots);
      return sessions.Keys;
    }

    /** A visit of shutdown_all to a session at rest. */
    method Visit(id: SessionId) returns (taken: Option<set<Handle>>)
      requires Valid() && id in slots && IsIdle(slots[id])
      modifies this`sessions, this`slots
      ensures Valid() && slots == old(slots)[id := Visited(old(slots)[id])]
      ensures if id in old(sessions) then sessions == old(sessions)[id := Ended(old(sessions)[id])] && taken == Some(AllListeners(old(sessions)[id]))
              else sessions == old(sessions) && taken.None?
    {
      hide Consistent; hide SeenOf; hide Numbers; hide FinishedListeners; hide CountingOps; hide DoDecide; hide Ended; hide AllListeners;
      Known(id);
      if id !in sessions {
        assert slots[id := slots[id]] == slots;
        return None;
      }
      VisitingSeen(slots[id]);
      hide Visiting;
      Section(id, Visiting(slots[id]));
      DecidedSweep(sessions[id], numbers[id]);
      ghost var s := Visiting(slots[id]);
      assert slots[id := s][id := DoDecide(s, SWEEPER)] == slots[id := DoDecide(s, SWEEPER)];
      slots := slots[id := s];
      taken := Decide(id, Sweep, SWEEPER);
    }

    /** The loop of shutdown_all: every session stops and gives up its listeners. */
    method TakeEverything(ids: set<SessionId>) returns (taken: map<SessionId, set<Handle>>, count: nat)
      requires Valid() && ids <= slots.Keys && AtRest(slots)
      modifies this`sessions, this`slots
      ensures Valid() && count == |ids * old(sessions).Keys|
      ensures sessions == EndedSessions(old(sessions), ids) && taken == TakenFrom(old(sessions), ids)
      ensures slots == VisitedSlots(old(slots), ids)
    {
      hide EndedSessions; hide TakenFrom; hide VisitedSlots; hide Ended; hide AllListeners; hide Consistent; hide Visited; hide IsIdle; hide AtRest;
      ghost var s0, p0 := sessions, slots;
      EndedNone(s0, p0);
      taken, count := map[], 0;
      var left := ids;
      ghost var done: set<SessionId> := {};
      while left != {}
        invariant done !! left && done + left == ids && Valid() && sessions == EndedSessions(s0, done)
        invariant taken == TakenFrom(s0, done) && count == |done * s0.Keys| && slots == VisitedSlots(p0, done)
      {
        var id :| id in left;
        EndedMore(s0, p0, done, id);
        TakenMore(s0, done, id);
        RestAt(p0, id);
        var hs := Visit(id);
        if hs.Some? {
          taken, count := taken[id := hs.value], count + 1;
        }
        left, done := left - {id}, done + {id};
      }
    }

    /** The end of shutdown_all: the registry is cleared and the gauge counted down once per visited session. */
    method FinishShutdown(count: nat)
      requires Valid() && count == |sessions| && AllSwept(slots)
      modifies this`sessions, this`active, this`slots
      ensures Valid() && sessions == map[] && active == 0 && slots == ClearedSlots(old(slots))
    {
      hide Consistent; hide ClearedSlots; hide AllSwept;
      ClearedConsistent(maxSessions, active, View(), slots);
      sessions := map[];
      slots := ClearedSlots(slots);
      for k := 0 to count
        invariant active == count - k && sessions == map[] && slots == ClearedSlots(old(slots))
        invariant Consistent(maxSessions, 0, View(), slots)
      {
        active := active - 1;
      }
    }

    /**
     shutdown_all, run after all connections and exit handlers have ended: every session gives up all its listeners, and
     once these have been shut down nothing is registered and the gauge is zero.
     */
    method ShutdownAll() returns (taken: map<SessionId, set<Handle>>)
      requires Valid() && AtRest(slots)
      modifies this`accepting, this`provisioning, this`sessions, this`active, this`slots
      ensures Valid() && !accepting && sessions == map[] && provisioning == {} && active == 0
      ensures taken == TakenFrom(old(sessions), old(sessions).Keys)
      ensures slots == ShutSlots(old(slots))
    {
      hide TakenFrom; hide EndedSessions; hide Consistent; hide AtRest; hide NoneCounting; hide AllSwept;
      hide VisitedSlots; hide ForgottenSlots; hide JoinedSlots; hide ClearedSlots; hide ShutSlots;
      Stages();
      EndedSize(sessions, sessions.Keys);
      var ids := BeginShutdown();
      var count;
      taken, count := TakeEverything(ids);
      JoinTaken();
      FinishShutdown(count);
    }

    lemma Stages()
      requires Valid() && AtRest(slots)
      ensures sessions.Keys <= slots.Keys
      ensures var f := ForgottenSlots(slots);
              var v := VisitedSlots(f, sessions.Keys);
              && f.Keys == slots.Keys && AtRest(f) && NoneCounting(v) && AllSwept(JoinedSlots(v))
              && ClearedSlots(JoinedSlots(v)) == ShutSlots(slots)
    {
      ShutMaps(View(), slots);
      hide AtRest;
    }

    /** The listeners that the visits took are shut down. */
    ghost method JoinTaken()
      requires Valid() && NoneCounting(slots)
      modifies this`slots
      ensures Valid() && slots == JoinedSlots(old(slots))
    {
      hide Consistent; hide JoinedSlots; hide NoneCounting;
      JoinedConsistent(maxSessions, active, View(), slots);
      slots := JoinedSlots(slots);
    }
  }

  /** `retain(|runtime| runtime.listener_generation() != g)`. */
  method RetainOthers(retired: set<Handle>, numbers: seq<nat>, g: nat) returns (kept: set<Handle>)
    ensures kept == set h | h in retired && !(h < |numbers| && numbers[h] == g)
  {
    kept := {};
    var left := retired;
    while left != {}
      invariant left <= retired && kept == set h | h in retired - left && !(h < |numbers| && numbers[h] == g)
    {
      var h :| h in left;
      if !(h < |numbers| && numbers[h] == g) { kept := kept + {h}; }
      left := left - {h};
    }
  }
}
