/** What the invariant of a session means to its users. */
module SessionProperties {
  import opened Basics
  import opened Config
  import opened Slots
  import opened SlotInvariants
  import SlotActions
  import Effective

  // ----- ownership -----

  /** The places where a started `ProxyRuntime` can live. */
  datatype Owner = TheCurrent | TheRetired | TheOp(op: OpId)

  predicate Owns(s: Slot, o: Owner, h: Handle) {
    match o
    case TheCurrent => s.entry.Some? && s.entry.value.current == Some(h)
    case TheRetired => s.entry.Some? && h in s.entry.value.retired
    case TheOp(op) => op in s.ops && h in Owned(s.ops[op])
  }

  function PlaceFor(o: Owner): Place {
    match o
    case TheCurrent => Current
    case TheRetired => Retired
    case TheOp(op) => Held(op)
  }

  lemma OwnerPlaces(acc: bool, limit: nat, s: Slot, o: Owner, h: Handle)
    requires Inv(acc, limit, s) && h < |s.runtimes|
    ensures Owns(s, o, h) <==> s.runtimes[h].place == PlaceFor(o)
  {
    hide PoliciesOk; hide Stray; hide ConnOk; hide EventOk; hide GateOk;
    assert RuntimeOk(acc, s, h);
    match o
    case TheRetired => if Owns(s, o, h) { assert RetiredOk(s, h); }
    case TheOp(op) => if Owns(s, o, h) { assert OpOk(s, op); }
    case TheCurrent =>
  }

  /** Every started listener has exactly one owner, or was dropped: cancelled, aborted and, in service, exited. */
  lemma ExactlyOneOwner(acc: bool, limit: nat, s: Slot, h: Handle)
    requires Inv(acc, limit, s) && h < |s.runtimes|
    ensures forall o, o' :: Owns(s, o, h) && Owns(s, o', h) ==> o == o'
    ensures (forall o :: !Owns(s, o, h)) ==>
              s.runtimes[h].cancelled && s.runtimes[h].aborted && (acc ==> HasExited(s.runtimes[h]))
  {
    forall o, o' | Owns(s, o, h) && Owns(s, o', h) ensures o == o' {
      OwnerPlaces(acc, limit, s, o, h);
      OwnerPlaces(acc, limit, s, o', h);
    }
    assert RuntimeOk(acc, s, h);
    match s.runtimes[h].place
    case Held(op) => OwnerPlaces(acc, limit, s, TheOp(op), h);
    case Current => OwnerPlaces(acc, limit, s, TheCurrent, h);
    case Retired => OwnerPlaces(acc, limit, s, TheRetired, h);
    case Gone =>
  }

  /** A session is running exactly when it has a current listener; a stopping one owns none. */
  lemma RunningIffCurrent(acc: bool, limit: nat, s: Slot)
    requires Inv(acc, limit, s) && s.entry.Some?
    ensures s.entry.value.lifecycle == Running <==> s.entry.value.current.Some?
    ensures s.entry.value.lifecycle == Stopping ==> AllListeners(s.entry.value) == {}
  {
    assert EntryOk(s);
  }

  /** A removed session with no operation in flight has only dropped listeners, exited while in service. */
  lemma RemovedLeavesNoListener(acc: bool, limit: nat, s: Slot, h: Handle)
    requires Inv(acc, limit, s) && s.entry.None? && s.ops == map[] && h < |s.runtimes|
    ensures s.runtimes[h].cancelled && s.runtimes[h].aborted && (acc ==> HasExited(s.runtimes[h]))
  {
    ExactlyOneOwner(acc, limit, s, h);
  }

  // ----- gate -----

  /** With the registry lock free: gate = listener generation = number of the current listener > retired ones. */
  lemma GateAgrees(acc: bool, limit: nat, s: Slot)
    requires Inv(acc, limit, s) && !RegistryHeld(s) && s.entry.Some?
    ensures s.gate == s.entry.value.listenerGeneration
    ensures s.entry.value.current.Some? ==>
              var h := s.entry.value.current.value;
              h < |s.runtimes| && s.runtimes[h].generation == s.gate
    ensures forall h :: h in s.entry.value.retired ==> h < |s.runtimes| && s.runtimes[h].generation < s.gate
  {
    hide OpOk; hide RuntimeOk; hide ConnOk; hide EventOk;
    assert EntryOk(s) && GateOk(s);
    assert CommittedOk(s, |s.committed| - 1);
    forall h | h in s.entry.value.retired ensures h < |s.runtimes| && s.runtimes[h].generation < s.gate {
      assert RetiredOk(s, h);
    }
  }

  /** At most one listener of a session, at any moment, can pass the admission check. */
  lemma OneListenerAdmits(acc: bool, limit: nat, s: Slot, h: Handle, h': Handle)
    requires Inv(acc, limit, s) && h < |s.runtimes| && h' < |s.runtimes|
    requires s.runtimes[h].generation == s.gate == s.runtimes[h'].generation
    ensures h == h'
  {
    hide OpOk; hide EntryOk; hide PoliciesOk; hide ConnOk; hide EventOk;
    assert RuntimeOk(acc, s, h) && RuntimeOk(acc, s, h') && GateOk(s);
  }

  /** The current listener is the last one that was cut over to, and carries its number. */
  lemma CurrentIsLast(acc: bool, limit: nat, s: Slot, h: Handle)
    requires Inv(acc, limit, s) && Owns(s, TheCurrent, h)
    ensures |s.committed| > 0 && s.committed[|s.committed| - 1] == h
    ensures h < |s.runtimes| && s.runtimes[h].generation == |s.committed|
  {
    hide OpOk; hide RuntimeOk; hide ConnOk; hide EventOk;
    assert EntryOk(s) && GateOk(s);
    assert CommittedOk(s, |s.committed| - 1);
  }

  /** Listeners that were cut over to, or were first, have different numbers. */
  lemma CommittedNumbersDiffer(acc: bool, limit: nat, s: Slot, i: nat, j: nat)
    requires Inv(acc, limit, s) && i < j < |s.committed|
    ensures s.committed[i] < |s.runtimes| && s.committed[j] < |s.runtimes|
    ensures s.runtimes[s.committed[i]].generation < s.runtimes[s.committed[j]].generation
  {
    hide OpOk; hide RuntimeOk; hide ConnOk; hide EventOk; hide EntryOk;
    assert GateOk(s);
    assert CommittedOk(s, i) && CommittedOk(s, j);
  }

  // ----- exit events -----

  /** An exit event that ends a session ends it because its current listener itself has exited. */
  lemma ExitEndsOnlyTheExited(acc: bool, limit: nat, s: Slot, op: OpId)
    requires Inv(acc, limit, s) && EndingAt(s, op) && s.ops[op].kind.Exit? && s.entry.Some?
    requires s.ops[op].kind.event.generation == s.entry.value.listenerGeneration && s.entry.value.current.Some?
    ensures var h := s.entry.value.current.value;
            h == s.ops[op].kind.event.sender && h < |s.runtimes| && HasExited(s.runtimes[h])
  {
    hide RuntimeOk; hide ConnOk;
    assert OpOk(s, op) && EntryOk(s) && GateOk(s);
    assert CommittedOk(s, |s.committed| - 1);
  }

  /** Any other exit event only drops its own sender from the retired listeners, which has exited. */
  lemma LateExitOnlyForgets(acc: bool, limit: nat, s: Slot, op: OpId)
    requires Inv(acc, limit, s) && EndingAt(s, op) && s.ops[op].end.Deciding? && s.ops[op].kind.Exit? && s.entry.Some?
    requires s.ops[op].kind.event.generation != s.entry.value.listenerGeneration
    ensures var e, s' := s.ops[op].kind.event, DoDecide(s, op);
            && s'.entry.Some? && s'.gate == s.gate
            && s'.entry.value == s.entry.value.(
                                 retired := s.entry.value.retired - {e.sender}, draining := |s.entry.value.retired - {e.sender}|)
            && e.sender < |s.runtimes| && HasExited(s.runtimes[e.sender])
  {
    var e := s.ops[op].kind.event;
    hide RuntimeOk; hide ConnOk; hide GateOk; hide Drop; hide Return;
    assert OpOk(s, op) && EntryOk(s);
    assert Named(s, e.generation) == s.entry.value.retired * {e.sender} by {
      forall h | h in Named(s, e.generation) ensures h == e.sender { SlotActions.NamedExited(s, op, e, h); }
      if e.sender in s.entry.value.retired { assert RetiredOk(s, e.sender); }
    }
    assert s.entry.value.retired - Named(s, e.generation) == s.entry.value.retired - {e.sender};
  }

  // ----- limits -----

  /** Every live policy generation of a listener is tracked, and at most eight are. */
  lemma LiveGenerationsBounded(acc: bool, limit: nat, s: Slot, h: Handle)
    requires Inv(acc, limit, s) && h < |s.runtimes|
    ensures |s.runtimes[h].tracked| <= MAX_POLICY_GENERATIONS
    ensures forall g: nat :: Live(s, h, g) ==> g in s.runtimes[h].tracked
  {
    hide OpOk; hide EntryOk; hide GateOk; hide EventOk; hide PlaceOk; hide Stray;
    assert RuntimeOk(acc, s, h);
    forall g: nat | Live(s, h, g) ensures g in s.runtimes[h].tracked {
      if c :| c in s.conns && s.conns[c] == Conn(h, g) { assert ConnOk(s, c); }
    }
  }

  ghost function TrackedBy(s: Slot, hs: set<Handle>): set<(Handle, nat)> {
    set h, i | h in hs && 0 <= h < |s.runtimes| && 0 <= i < |s.runtimes[h].tracked| :: (h, s.runtimes[h].tracked[i])
  }

  lemma {:induction false} IndexImageBound(h: Handle, tracked: seq<nat>)
    ensures |(set i | 0 <= i < |tracked| :: (h, tracked[i]))| <= |tracked|
  {
    var image := set i | 0 <= i < |tracked| :: (h, tracked[i]);
    if tracked == [] { assert image == {}; }
    else {
      var front := tracked[..|tracked| - 1];
      IndexImageBound(h, front);
      var last := (h, tracked[|tracked| - 1]);
      assert image == (set i | 0 <= i < |front| :: (h, front[i])) + {last} by {
        forall p | p in image ensures p in (set i | 0 <= i < |front| :: (h, front[i])) + {last} {
          var i :| 0 <= i < |tracked| && p == (h, tracked[i]);
          if i < |front| { assert front[i] == tracked[i]; }
        }
        forall i | 0 <= i < |front| ensures (h, front[i]) in image { assert front[i] == tracked[i]; }
      }
    }
  }

  lemma {:induction false} TrackedBound(acc: bool, limit: nat, s: Slot, hs: set<Handle>)
    requires Inv(acc, limit, s)
    ensures |TrackedBy(s, hs)| <= MAX_POLICY_GENERATIONS * |hs|
    decreases |hs|
  {
    hide Inv;
    if hs == {} { assert TrackedBy(s, hs) == {}; }
    else {
      var h :| h in hs;
      var rest := hs - {h};
      TrackedBound(acc, limit, s, rest);
      if h < |s.runtimes| {
        var own: set<(Handle, nat)> := set i | 0 <= i < |s.runtimes[h].tracked| :: (h, s.runtimes[h].tracked[i]);
        IndexImageBound(h, s.runtimes[h].tracked);
        LiveGenerationsBounded(acc, limit, s, h);
        assert TrackedBy(s, hs) == TrackedBy(s, rest) + own;
      } else {
        assert TrackedBy(s, hs) == TrackedBy(s, rest);
      }
    }
  }

  /** A session keeps at most eight retired listeners, so at most 72 policy generations, alive. */
  lemma SessionGenerationsBounded(acc: bool, limit: nat, s: Slot)
    requires Inv(acc, limit, s) && s.entry.Some?
    ensures |s.entry.value.retired| <= MAX_RETIRED_LISTENERS
    ensures |TrackedBy(s, AllListeners(s.entry.value))| <= 72
    ensures forall h: nat, g: nat :: h in AllListeners(s.entry.value) && h < |s.runtimes| && Live(s, h, g) ==>
                                       (h, g) in TrackedBy(s, AllListeners(s.entry.value))
  {
    assert EntryOk(s);
    TrackedBound(acc, limit, s, AllListeners(s.entry.value));
    hide Inv; hide EntryOk;
    assert |AllListeners(s.entry.value)| <= |s.entry.value.retired| + 1;
    forall h: nat, g: nat | h in AllListeners(s.entry.value) && h < |s.runtimes| && Live(s, h, g)
      ensures (h, g) in TrackedBy(s, AllListeners(s.entry.value))
    {
      LiveGenerationsBounded(acc, limit, s, h);
    }
  }

  /** Permits are conserved over all listeners of the session, so connections never exceed the limit. */
  lemma ConnectionsBounded(acc: bool, limit: nat, s: Slot)
    requires Inv(acc, limit, s)
    ensures s.permits + |s.conns| == limit && |s.conns| <= limit
  {
    hide OpOk; hide EntryOk; hide GateOk; hide EventOk; hide RuntimeOk;
  }

  /** A connection has pinned a policy generation of its listener. */
  lemma PinnedExists(acc: bool, limit: nat, s: Slot, c: ConnId)
    requires Inv(acc, limit, s) && c in s.conns
    ensures s.conns[c].runtime < |s.runtimes| && s.conns[c].gen < |s.runtimes[s.conns[c].runtime].gens|
  {
    hide OpOk; hide EntryOk; hide GateOk; hide EventOk; hide PlaceOk; hide Stray;
    assert ConnOk(s, c) && RuntimeOk(acc, s, s.conns[c].runtime);
  }

  // ----- reload -----

  /** The current listener serves exactly the stored configuration and secrets, under the session's one seed. */
  lemma CurrentServesConfiguration(acc: bool, limit: nat, s: Slot)
    requires Inv(acc, limit, s) && s.entry.Some? && s.entry.value.current.Some?
    ensures var x := s.entry.value;
            var h := x.current.value;
            && h < |s.runtimes| && s.runtimes[h].gens != []
            && s.runtimes[h].gens[Selected(s.runtimes[h])] == Generation(x.config, x.secrets, s.seed)
            && s.runtimes[h].socket == x.socket
            && x.config.persistent == s.persistent
  {
    hide OpOk; hide RuntimeOk; hide GateOk; hide ConnOk; hide EventOk;
    assert EntryOk(s);
  }

  /** The branch for a running session without a current listener (src/control/reload.rs:267-271) is dead. */
  lemma CutoverFindsListener(acc: bool, limit: nat, s: Slot)
    requires Inv(acc, limit, s) && s.entry.Some? && s.entry.value.lifecycle == Running
    ensures !s.entry.value.current.None?
  {
    assert EntryOk(s);
  }

  ghost predicate Untouched(s: Slot, s': Slot) {
    && s'.entry.Some? == s.entry.Some?
    && s'.gate == s.gate
    && (s.entry.Some? ==> CoreOf(s'.entry.value, s'.gate) == CoreOf(s.entry.value, s.gate))
  }

  lemma ReplyUntouched(s: Slot, p: Slot, op: OpId, answer: Answer)
    requires op in p.ops && Untouched(s, p)
    ensures Untouched(s, Reply(p, op, answer))
  {
    hide Reply;
  }

  lemma PrunedUntouched(s: Slot)
    requires s.entry.Some?
    ensures Pruned(s).entry.Some? && Untouched(s, Pruned(s)) && Untouched(s, Counted(Pruned(s))) && Pruned(s).ops == s.ops && Pruned(s).answers == s.answers
    ensures Counted(Pruned(s)).ops == s.ops && Counted(Pruned(s)).answers == s.answers
  {
    hide Drop; hide FinishedRetired;
  }

  /** What a reload captured, once it has. */
  function CapturedBy(pc: ReloadPc): Option<Captured> {
    match pc
    case Reading(got) => Some(got)
    case Comparing(got, _) => Some(got)
    case Selecting(got, _) => Some(got)
    case Planning(got, _) => Some(got)
    case Starting(got, _, _) => Some(got)
    case CuttingOver(got, _, _, _) => Some(got)
    case Discarding(got, _) => Some(got)
    case _ => None
  }

  /** A critical section of a reload that answers `Failed` or `Unchanged` leaves the session's core as it was. */
  lemma UnsuccessfulSection(acc: bool, s: Slot, r: Reload)
    requires ReloadEnabled(s, r) && !r.BeginReload? && r.op !in s.answers
    requires var s' := ReloadNext(acc, s, r); r.op in s'.answers && s'.answers[r.op] != Reloaded
    ensures Untouched(s, ReloadNext(acc, s, r))
  {
    hide DoPrepare; hide DoPlan; hide DoSelect; hide DoCutOver; hide Reply; hide Effective.SameConfiguration; hide Untouched;
    match r
    case Prepare(op) => PrepareFails(acc, s, op);
    case Plan(op) => PlanFails(acc, s, op);
    case Select(op) => SelectFails(acc, s, op);
    case CutOver(op) => CutOverFails(acc, s, op);
    case Read(op, _) => SelfUntouched(s); ReplyUntouched(s, s, op, Failed);
    case Compare(op) => SelfUntouched(s); ReplyUntouched(s, s, op, Failed); ReplyUntouched(s, s, op, Unchanged);
    case StartReplacement(op, _) => SelfUntouched(s); ReplyUntouched(s, s, op, Failed);
    case _ =>
  }

  lemma SelfUntouched(s: Slot)
    ensures Untouched(s, s)
  {
  }

  lemma PrepareFails(acc: bool, s: Slot, op: OpId)
    requires op in s.ops && op in DoPrepare(acc, s, op).answers && op !in s.answers
    ensures Untouched(s, DoPrepare(acc, s, op))
  {
    hide Reply; hide Pruned; hide Untouched; hide Counted;
    SelfUntouched(s);
    ReplyUntouched(s, s, op, Failed);
    if s.entry.Some? {
      PrunedUntouched(s);
      ReplyUntouched(s, Counted(Pruned(s)), op, Failed);
    }
  }

  lemma PlanFails(acc: bool, s: Slot, op: OpId)
    requires op in s.ops && s.ops[op].Reloading? && s.ops[op].reload.Planning?
    requires op in DoPlan(acc, s, op).answers && op !in s.answers
    ensures Untouched(s, DoPlan(acc, s, op))
  {
    hide Reply; hide Pruned; hide Untouched;
    SelfUntouched(s);
    ReplyUntouched(s, s, op, Failed);
    if s.entry.Some? {
      PrunedUntouched(s);
      ReplyUntouched(s, Pruned(s), op, Failed);
    }
  }

  lemma SelectFails(acc: bool, s: Slot, op: OpId)
    requires ReloadEnabled(s, Select(op)) && op in DoSelect(acc, s, op).answers && DoSelect(acc, s, op).answers[op] != Reloaded
    ensures Untouched(s, DoSelect(acc, s, op))
  {
    hide Reply; hide KeepLive; hide Reselect;
  }

  lemma CutOverFails(acc: bool, s: Slot, op: OpId)
    requires ReloadEnabled(s, CutOver(op)) && op in DoCutOver(acc, s, op).answers && op !in s.answers
    ensures Untouched(s, DoCutOver(acc, s, op))
  {
    hide Reply; hide MoveTo;
  }

  /** A reload captures the core its session has at that moment. */
  lemma PrepareCaptures(acc: bool, s: Slot, op: OpId)
    requires ReloadEnabled(s, Prepare(op)) && op in DoPrepare(acc, s, op).ops
    ensures var s' := DoPrepare(acc, s, op);
            && s.entry.Some? && s'.ops[op].Reloading? && s'.ops[op].reload.Reading?
            && s'.ops[op].reload.got.core == CoreOf(s.entry.value, s.gate)
  {
    hide Pruned; hide Reply;
    if s.entry.Some? { PrunedUntouched(s); }
  }

  lemma AnswersOwn(acc: bool, s: Slot, r: Reload)
    requires ReloadEnabled(s, r)
    ensures var s' := ReloadNext(acc, s, r); s'.answers.Keys <= s.answers.Keys + {r.op}
    ensures r.BeginReload? ==> ReloadNext(acc, s, r).answers == s.answers
  {
    hide DoPrepare; hide DoRead; hide DoCompare; hide DoSelect; hide DoPlan; hide DoStartReplacement; hide DoCutOver;
    hide DoStoreGate; hide DoRetire;
  }

  lemma JoinAnswers(s: Slot, op: OpId, h: Handle)
    requires op in s.ops
    ensures Untouched(s, DoJoin(s, op, h))
  {
    hide Reply; hide Drop;
  }

  lemma ControlAnswers(acc: bool, s: Slot, c: Control)
    requires ControlEnabled(acc, s, c)
    ensures var s' := ControlNext(acc, s, c);
            s'.answers != s.answers ==> c.Join? && Untouched(s, s')
  {
    hide Return; hide DoJoin; hide Pruned; hide Counted; hide DoStartFirst; hide DoPublish; hide DoLocate; hide DoAcquire;
    hide DoDecide; hide DoErase; hide Untouched;
    match c
    case Join(op, h) => JoinAnswers(s, op, h);
    case Prune => PrunedUntouched(s);
    case _ =>
  }

  lemma CapturedStill(acc: bool, limit: nat, s: Slot, op: OpId)
    requires Inv(acc, limit, s) && ReloadingAt(s, op) && CapturedBy(s.ops[op].reload).Some?
    ensures CapturedOk(s, CapturedBy(s.ops[op].reload).value)
  {
    hide EntryOk; hide GateOk; hide RuntimeOk; hide ConnOk; hide EventOk; hide IsAt; hide CapturedOk;
    assert OpOk(s, op);
  }

  /**
   A reload that reports failure or no change leaves configuration, secrets, socket, both generation counters
   and the gate exactly as its first critical section found them.
   */
  lemma UnsuccessfulReload(acc: bool, limit: nat, s: Slot, a: Action, op: OpId)
    requires Inv(acc, limit, s) && Enabled(acc, s, a) && op !in s.answers
    requires ReloadingAt(s, op) && CapturedBy(s.ops[op].reload).Some?
    requires var s' := Next(acc, s, a); op in s'.answers && s'.answers[op] != Reloaded
    ensures var s' := Next(acc, s, a);
            s'.entry.Some? ==> s.entry.Some? && CoreOf(s'.entry.value, s'.gate) == CapturedBy(s.ops[op].reload).value.core
  {
    hide Inv;
    CapturedStill(acc, limit, s, op);
    if a.ByReload? {
      hide ReloadNext; hide ReloadEnabled;
      AnswersOwn(acc, s, a.reload);
      UnsuccessfulSection(acc, s, a.reload);
    } else {
      hide ControlNext; hide ControlEnabled; hide ListenerNext; hide ListenerEnabled;
      if a.ByControl? { ControlAnswers(acc, s, a.control); }
    }
  }
}
