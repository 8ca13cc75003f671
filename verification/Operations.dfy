/** What each operation of a session achieves when nothing interferes (src/control/session.rs:76-304, src/control/reload.rs:71-286). */
module Operations {
  import opened Basics
  import opened Config
  import opened Slots
  import opened SlotInvariants
  import opened SlotEffects
  import opened SessionViews
  import opened SessionRuns
  import opened ReloadRuns
  import SessionProperties
  import SessionTables
  import DaemonProofs
  import Effective

  // ----- create -----

  /** A create that is not disturbed registers exactly the session it was asked for, and serves it from listener 1. */
  lemma CreateRegisters(
    limit: nat, op: OpId, config: SessionConfig, secrets: Secrets, source: Option<string>, seed: Seed, path: string)
    ensures var s0 := NewSlot(limit, op, config, secrets, source, seed);
            var s1 := ControlNext(true, s0, Control.StartFirst(op, Some(path)));
            var s2 := ControlNext(true, s1, Control.Publish(op));
            && s2.entry == Some(Session(Running, config, secrets, source, path, 1, 1, Some(0), {}, 0)) && !s2.reserved
            && s2.ops == map[] && s2.gate == 1 && |s2.runtimes| == 1
            && s2.runtimes[0] == NewRuntime(1, path, Generation(config, secrets, seed), op).(place := Current)
  {
    var s0 := NewSlot(limit, op, config, secrets, source, seed);
    var s1 := ControlNext(true, s0, Control.StartFirst(op, Some(path)));
    assert s1.ops == map[op := Publishing(config, secrets, source, 0)];
    assert s1.runtimes == [NewRuntime(1, path, Generation(config, secrets, seed), op)];
    assert s1.ops - {op} == map[];
  }

  /** Whatever create is under way was asked for this session. */
  ghost predicate AsAsked(s: Slot, config: SessionConfig, secrets: Secrets, source: Option<string>) {
    forall o :: o in s.ops ==> IsAsked(s.ops[o], config, secrets, source)
  }

  predicate IsAsked(o: Op, config: SessionConfig, secrets: Secrets, source: Option<string>) {
    match o
    case StartingFirst(c, k, f) => c == config && k == secrets && f == source
    case Publishing(c, k, f, _) => c == config && k == secrets && f == source
    case _ => true
  }

  /** An operation that begins is no create. */
  lemma BeginAsked(acc: bool, s: Slot, a: Action, config: SessionConfig, secrets: Secrets, source: Option<string>)
    requires Enabled(acc, s, a) && Begins(a)
    ensures var s', o := Next(acc, s, a), Mover(a); o in s'.ops && IsAsked(s'.ops[o], config, secrets, source)
  {
    match a
    case ByControl(k) => BeginControlAsked(acc, s, k);
    case ByReload(r) =>
  }

  lemma BeginControlAsked(acc: bool, s: Slot, k: Control)
    requires ControlEnabled(acc, s, k) && (k.BeginEnd? || k.Deliver?)
    ensures k.op in ControlNext(acc, s, k).ops && ControlNext(acc, s, k).ops[k.op].Locating?
  {
  }

  lemma CountAsked(acc: bool, s: Slot, k: Control, config: SessionConfig, secrets: Secrets, source: Option<string>)
    requires ControlEnabled(acc, s, k) && Counts(ByControl(k))
    ensures k.op in ControlNext(acc, s, k).ops ==> IsAsked(ControlNext(acc, s, k).ops[k.op], config, secrets, source)
  {
    hide Return; hide DoPublish; hide DoErase;
    match k
    case Publish(o) => PublishOps(acc, s, o);
    case Erase(o) => EraseOps(s, o);
    case _ =>
  }

  /** A create that goes on has just started its listener. */
  lemma CreateGoesOn(acc: bool, s: Slot, a: Action, op: OpId)
    requires Enabled(acc, s, a) && !Begins(a) && !Counts(a) && Owner(a) == Some(op) && op in s.ops && IsCreate(s.ops[op])
    requires op in Next(acc, s, a).ops
    ensures a.ByControl? && a.control.StartFirst?
  {
    assert a.ByControl?;
    var k := a.control;
    if k.Cancel? { CancelGoes(acc, s, op); }
    hide ControlNext;
  }

  lemma CancelGoes(acc: bool, s: Slot, op: OpId)
    requires ControlEnabled(acc, s, Cancel(op))
    ensures op !in ControlNext(acc, s, Cancel(op)).ops
  {
    hide Return;
  }

  lemma OwnAsked(acc: bool, s: Slot, a: Action, op: OpId, config: SessionConfig, secrets: Secrets, source: Option<string>)
    requires Enabled(acc, s, a) && Owner(a) == Some(op) && AsAsked(s, config, secrets, source) && op in Next(acc, s, a).ops
    ensures IsAsked(Next(acc, s, a).ops[op], config, secrets, source)
  {
    hide Next; hide Enabled; hide AsAsked;
    if Begins(a) {
      BeginAsked(acc, s, a, config, secrets, source);
    } else if Counts(a) {
      NextControl(acc, s, a.control);
      CountAsked(acc, s, a.control, config, secrets, source);
    } else {
      ActionMoves(acc, s, a);
      if IsCreate(Next(acc, s, a).ops[op]) {
        CreateGoesOn(acc, s, a, op);
        NextControl(acc, s, a.control);
        AskedAt(s, op, config, secrets, source);
        FirstAsked(acc, s, a.control, config, secrets, source);
      }
    }
  }

  lemma NextControl(acc: bool, s: Slot, k: Control)
    requires Enabled(acc, s, ByControl(k))
    ensures ControlEnabled(acc, s, k) && Next(acc, s, ByControl(k)) == ControlNext(acc, s, k)
  {
    hide ControlNext; hide ControlEnabled;
  }

  lemma AskedAt(s: Slot, op: OpId, config: SessionConfig, secrets: Secrets, source: Option<string>)
    requires AsAsked(s, config, secrets, source) && op in s.ops
    ensures IsAsked(s.ops[op], config, secrets, source)
  {
  }

  lemma FirstAsked(acc: bool, s: Slot, k: Control, config: SessionConfig, secrets: Secrets, source: Option<string>)
    requires ControlEnabled(acc, s, k) && k.StartFirst? && IsAsked(s.ops[k.op], config, secrets, source)
    ensures k.op in ControlNext(acc, s, k).ops && IsAsked(ControlNext(acc, s, k).ops[k.op], config, secrets, source)
  {
    StartAsked(s, k.op, k.path, config, secrets, source);
    hide DoStartFirst;
    assert ControlNext(acc, s, k) == DoStartFirst(s, k.op, k.path);
  }

  lemma StartAsked(s: Slot, op: OpId, path: Option<string>, config: SessionConfig, secrets: Secrets, source: Option<string>)
    requires op in s.ops && s.ops[op].StartingFirst? && IsAsked(s.ops[op], config, secrets, source)
    ensures op in DoStartFirst(s, op, path).ops && IsAsked(DoStartFirst(s, op, path).ops[op], config, secrets, source)
  {
  }

  lemma ActAsked(acc: bool, s: Slot, a: Action, config: SessionConfig, secrets: Secrets, source: Option<string>)
    requires Enabled(acc, s, a) && AsAsked(s, config, secrets, source)
    ensures AsAsked(Next(acc, s, a), config, secrets, source)
  {
    hide Next; hide Enabled; hide IsAsked; hide Owner;
    forall o | o in Next(acc, s, a).ops ensures IsAsked(Next(acc, s, a).ops[o], config, secrets, source) {
      if Owner(a) == Some(o) { OwnAsked(acc, s, a, o, config, secrets, source); } else { OthersOps(acc, s, a, o); }
    }
  }

  /** Only a publication makes a session of a reservation. */
  lemma AppearsBy(acc: bool, s: Slot, a: Action)
    requires Enabled(acc, s, a) && s.entry.None? && Next(acc, s, a).entry.Some?
    ensures acc && a.ByControl? && a.control.Publish?
  {
    hide Next; hide Enabled;
    if Begins(a) {
      DaemonProofs.BeginShape(acc, s, a);
    } else if Counts(a) {
      NextControl(acc, s, a.control);
      CountAppears(acc, s, a.control);
    } else {
      ActionMoves(acc, s, a);
    }
  }

  lemma CountAppears(acc: bool, s: Slot, k: Control)
    requires ControlEnabled(acc, s, k) && Counts(ByControl(k)) && s.entry.None? && ControlNext(acc, s, k).entry.Some?
    ensures acc && k.Publish?
  {
    hide Return; hide MoveTo;
  }

  lemma {:induction false} RunAsked(
    limit: nat, states: seq<State>, steps: seq<Step>, i: nat, config: SessionConfig, secrets: Secrets, source: Option<string>)
    requires IsRun(limit, states, steps) && i < |states| && AsAsked(states[0].slot, config, secrets, source)
    ensures AsAsked(states[i].slot, config, secrets, source)
  {
    hide IsStart; hide CanStep; hide After; hide AsAsked;
    if i > 0 {
      RunAsked(limit, states, steps, i - 1, config, secrets, source);
      assert CanStep(states[i - 1], steps[i - 1]) && states[i - 1 + 1] == After(states[i - 1], steps[i - 1]);
      StepAsked(states[i - 1], steps[i - 1], config, secrets, source);
    }
  }

  lemma StepAsked(st: State, step: Step, config: SessionConfig, secrets: Secrets, source: Option<string>)
    requires CanStep(st, step) && AsAsked(st.slot, config, secrets, source)
    ensures AsAsked(After(st, step).slot, config, secrets, source)
  {
    hide Enabled; hide Next; hide IsAsked;
    if step.Act? { ActAsked(st.accepting, st.slot, step.action, config, secrets, source); }
  }

  /** In every run, what a create registers is the session that was asked for, served by its first listener. */
  lemma CreateServesRequest(
    limit: nat, states: seq<State>, steps: seq<Step>, i: nat,
    op: OpId, config: SessionConfig, secrets: Secrets, source: Option<string>, seed: Seed)
    requires IsRun(limit, states, steps) && i < |steps| && states[0].slot == NewSlot(limit, op, config, secrets, source, seed)
    requires states[i].slot.entry.None? && states[i + 1].slot.entry.Some?
    ensures var s := states[i + 1].slot;
            && s.entry.Some? && s.entry.value.lifecycle == Running && s.entry.value.config == config
            && s.entry.value.secrets == secrets && s.entry.value.source == source && s.entry.value.current.Some?
            && var h := s.entry.value.current.value;
               && h < |s.runtimes| && s.runtimes[h].generation == 1 && s.runtimes[h].socket == s.entry.value.socket
               && s.runtimes[h].gens != [] && s.runtimes[h].gens[|s.runtimes[h].gens| - 1] == Generation(config, secrets, seed)
  {
    hide Inv; hide CanStep; hide After; hide IsStart; hide AsAsked;
    StartAsAsked(limit, op, config, secrets, source, seed);
    RunAsked(limit, states, steps, i, config, secrets, source);
    RunKept(limit, states, steps, 0, i + 1);
    StartSeed(limit, op, config, secrets, source, seed);
    RunKeeps(limit, states, steps, i + 1);
    assert CanStep(states[i], steps[i]) && states[i + 1] == After(states[i], steps[i]);
    Appears(states[i], steps[i], config, secrets, source);
    RunningServes(states[i + 1].accepting, limit, states[i + 1].slot);
    FirstNumber(states[i + 1].accepting, limit, states[i + 1].slot);
  }

  lemma StartAsAsked(limit: nat, op: OpId, config: SessionConfig, secrets: Secrets, source: Option<string>, seed: Seed)
    ensures AsAsked(NewSlot(limit, op, config, secrets, source, seed), config, secrets, source)
  {
  }

  lemma StartSeed(limit: nat, op: OpId, config: SessionConfig, secrets: Secrets, source: Option<string>, seed: Seed)
    ensures NewSlot(limit, op, config, secrets, source, seed).seed == seed
  {
  }

  /** The step at which a session appears publishes what was asked for. */
  lemma Appears(st: State, step: Step, config: SessionConfig, secrets: Secrets, source: Option<string>)
    requires CanStep(st, step) && AsAsked(st.slot, config, secrets, source)
    requires st.slot.entry.None? && After(st, step).slot.entry.Some?
    ensures var x := After(st, step).slot.entry.value;
            && x.lifecycle == Running && x.config == config && x.secrets == secrets && x.source == source
            && x.listenerGeneration == 1
  {
    hide Enabled; hide Next; hide AsAsked;
    var a := step.action;
    AppearsBy(st.accepting, st.slot, a);
    NextControl(st.accepting, st.slot, a.control);
    AskedAt(st.slot, a.control.op, config, secrets, source);
    PublishedAs(st.slot, a.control.op);
  }

  lemma PublishedAs(s: Slot, op: OpId)
    requires ControlEnabled(true, s, Control.Publish(op))
    ensures var s', c := ControlNext(true, s, Control.Publish(op)), s.ops[op];
            && s'.entry.Some? && s'.entry.value.lifecycle == Running && s'.entry.value.config == c.config
            && s'.entry.value.secrets == c.secrets && s'.entry.value.source == c.source && s'.entry.value.listenerGeneration == 1
  {
    hide MoveTo;
  }

  lemma FirstNumber(acc: bool, limit: nat, s: Slot)
    requires Inv(acc, limit, s) && s.entry.Some? && s.entry.value.current.Some?
    ensures s.entry.value.current.value < |s.runtimes|
    ensures s.runtimes[s.entry.value.current.value].generation == s.entry.value.listenerGeneration
  {
    hide RuntimeOk; hide OpOk; hide ConnOk; hide EventOk;
    assert CommittedOk(s, |s.committed| - 1);
  }

  // ----- stop, remove and the exit of the current listener -----

  /** The section ends the session that it finds running, unless an older listener has exited. */
  lemma EndsRunning(acc: bool, limit: nat, s: Slot, op: OpId)
    requires Inv(acc, limit, s) && EndingAt(s, op) && s.ops[op].end.Deciding? && IsRunning(s)
    requires s.ops[op].kind.Exit? ==> s.ops[op].kind.event.generation == s.entry.value.listenerGeneration
    ensures var s', x, kind := DoDecide(s, op), s.entry.value, s.ops[op].kind;
            && x.current.Some? && s'.entry == Some(x.(lifecycle := Stopping, current := None, retired := {}))
            && op in s'.ops && s'.ops[op] == Ending(kind, Shutting(x.retired + {x.current.value}))
            && forall h :: h in x.retired + {x.current.value} ==> IsAt(s', h, Held(op))
  {
    hide Inv; hide Return; hide DropNamed;
    ListenersInRange(acc, limit, s);
  }

  lemma ListenersInRange(acc: bool, limit: nat, s: Slot)
    requires Inv(acc, limit, s) && IsRunning(s)
    ensures s.entry.value.current.Some? && forall h :: h in AllListeners(s.entry.value) ==> h < |s.runtimes|
  {
    hide RuntimeOk; hide OpOk; hide GateOk; hide ConnOk; hide EventOk;
  }

  /** A session that is already stopping is left to the operation that stops it. */
  lemma EndsOnce(acc: bool, limit: nat, s: Slot, op: OpId)
    requires Inv(acc, limit, s) && EndingAt(s, op) && s.ops[op].end.Deciding? && !IsRunning(s) && !s.ops[op].kind.Sweep?
    requires s.entry.Some? && s.ops[op].kind.Exit? ==> s.ops[op].kind.event.generation == s.entry.value.listenerGeneration
    ensures DoDecide(s, op).entry == s.entry && op !in DoDecide(s, op).ops
  {
    assert s.entry.Some? ==> s.entry.value.current.None? by {
      hide RuntimeOk; hide OpOk; hide GateOk; hide ConnOk; hide EventOk;
    }
    hide Inv; hide Return; hide DropNamed; hide TakeAll;
  }

  /** The operation from its start to its section, on a session whose lock is free. */
  function EndAlone(acc: bool, s: Slot, op: OpId, kind: EndKind): Slot {
    var begin := if kind.Exit? then Deliver(op, kind.event) else BeginEnd(op, kind);
    var s3 := ControlNext(acc, ControlNext(acc, ControlNext(acc, s, begin), Locate(op)), AcquireLock(op));
    ControlNext(acc, s3, Decide(op))
  }

  /** A stop, a removal, a sweep or the exit of the current listener takes every listener of a running session. */
  lemma EndTakesAll(acc: bool, s: Slot, op: OpId, kind: EndKind)
    requires op !in s.ops && s.lock.None? && IsRunning(s) && s.entry.value.current.Some?
    requires kind.Exit? ==> kind.event in s.events && kind.event.generation == s.entry.value.listenerGeneration
    ensures var s', x := EndAlone(acc, s, op, kind), s.entry.value;
            && s'.entry == Some(x.(lifecycle := Stopping, current := None, retired := {}))
            && op in s'.ops && s'.ops[op] == Ending(kind, Shutting(x.retired + {x.current.value}))
  {
    hide ControlNext; hide ControlEnabled; hide DoDecide;
    var begin := if kind.Exit? then Deliver(op, kind.event) else BeginEnd(op, kind);
    var s1 := ControlNext(acc, s, begin);
    BeginsAt(acc, s, op, kind);
    var s2 := ControlNext(acc, s1, Locate(op));
    LocatesAt(acc, s1, op, kind);
    var s3 := ControlNext(acc, s2, AcquireLock(op));
    AcquiresAt(acc, s2, op, kind);
    DecidesAt(acc, s3, op, kind);
  }

  lemma BeginsAt(acc: bool, s: Slot, op: OpId, kind: EndKind)
    requires op !in s.ops && (kind.Exit? ==> kind.event in s.events)
    ensures var s' := ControlNext(acc, s, if kind.Exit? then Deliver(op, kind.event) else BeginEnd(op, kind));
            s'.entry == s.entry && s'.lock == s.lock && op in s'.ops && s'.ops[op] == Locating(ToEnd(kind))
  {
  }

  lemma LocatesAt(acc: bool, s: Slot, op: OpId, kind: EndKind)
    requires op in s.ops && s.ops[op] == Locating(ToEnd(kind)) && s.entry.Some?
    ensures var s' := ControlNext(acc, s, Locate(op));
            s'.entry == s.entry && s'.lock == s.lock && op in s'.ops && s'.ops[op] == AwaitingLock(ToEnd(kind))
  {
  }

  lemma AcquiresAt(acc: bool, s: Slot, op: OpId, kind: EndKind)
    requires op in s.ops && s.ops[op] == AwaitingLock(ToEnd(kind)) && s.lock.None?
    ensures var s' := ControlNext(acc, s, AcquireLock(op));
            s'.entry == s.entry && op in s'.ops && s'.ops[op] == Ending(kind, Deciding)
  {
  }

  lemma DecidesAt(acc: bool, s: Slot, op: OpId, kind: EndKind)
    requires op in s.ops && s.ops[op] == Ending(kind, Deciding) && IsRunning(s) && s.entry.value.current.Some?
    requires kind.Exit? ==> kind.event.generation == s.entry.value.listenerGeneration
    ensures var s', x := ControlNext(acc, s, Decide(op)), s.entry.value;
            && s'.entry == Some(x.(lifecycle := Stopping, current := None, retired := {}))
            && op in s'.ops && s'.ops[op] == Ending(kind, Shutting(x.retired + {x.current.value}))
  {
    hide Return; hide DropNamed; hide MoveTo;
  }

  /** Once its listeners are down, the operation removes the session, counts it down and is over. */
  lemma EndRemoves(acc: bool, s: Slot, op: OpId, kind: EndKind)
    requires op in s.ops && s.ops[op] == Ending(kind, Shutting({})) && !kind.Sweep? && s.entry.Some?
    ensures var s1 := ControlNext(acc, s, AllJoined(op));
            var s2 := ControlNext(acc, s1, Control.Erase(op));
            var s3 := ControlNext(acc, s2, Count(op));
            s2.entry == None && IsCounting(s2.ops[op]) && s3.entry == None && s3.ops == s.ops - {op} && s3.lock != Some(op)
  {
    hide ControlNext; hide ControlEnabled;
    var s1 := ControlNext(acc, s, AllJoined(op));
    JoinedAt(acc, s, op, kind);
    var s2 := ControlNext(acc, s1, Control.Erase(op));
    ErasedAt(acc, s1, op, kind);
    CountedAt(acc, s2, op, kind);
    assert s2.ops - {op} == s.ops - {op};
  }

  lemma JoinedAt(acc: bool, s: Slot, op: OpId, kind: EndKind)
    requires op in s.ops && s.ops[op] == Ending(kind, Shutting({})) && !kind.Sweep?
    ensures var t := ControlNext(acc, s, AllJoined(op)); t == s.(ops := s.ops[op := Ending(kind, Erasing)])
  {
  }

  lemma ErasedAt(acc: bool, s: Slot, op: OpId, kind: EndKind)
    requires op in s.ops && s.ops[op] == Ending(kind, Erasing) && s.entry.Some?
    ensures var t := ControlNext(acc, s, Control.Erase(op)); t == s.(entry := None, ops := s.ops[op := Ending(kind, Counting)])
  {
  }

  lemma CountedAt(acc: bool, s: Slot, op: OpId, kind: EndKind)
    requires op in s.ops && s.ops[op] == Ending(kind, Counting)
    ensures var t := ControlNext(acc, s, Count(op)); t.entry == s.entry && t.ops == s.ops - {op} && t.lock != Some(op)
  {
    ReturnUnlocks(s, op);
    hide Return;
  }

  lemma ReturnUnlocks(s: Slot, op: OpId)
    requires op in s.ops
    ensures Return(s, op).lock != Some(op)
  {
  }

  // ----- reload -----

  /** The reload up to its decision what to do with the file. */
  function UpToDecision(acc: bool, s: Slot, op: OpId, file: Option<Candidate>): Slot {
    var s1 := ReloadNext(acc, s, Prepare(op));
    if op in s1.answers then s1
    else
      var s2 := ReloadNext(acc, s1, Read(op, file));
      if op in s2.answers then s2 else ReloadNext(acc, s2, Compare(op))
  }

  predicate CanReload(acc: bool, s: Slot) {
    acc && s.entry.Some? && s.entry.value.lifecycle == Running && s.entry.value.source.Some?
  }

  /**
   A reload fails if the session is stopping, inline or gone, or the file is not usable; it answers unchanged exactly if
   path, secrets and configuration are those in force; else it goes on with the file, on the same socket or a new one.
   */
  lemma ReloadDecides(acc: bool, s: Slot, op: OpId, file: Option<Candidate>)
    requires ReloadEnabled(s, Prepare(op)) && op !in s.answers
    ensures var t := UpToDecision(acc, s, op, file);
            if !CanReload(acc, s) || file.None? then op in t.answers && t.answers[op] == Failed
            else
              var x := s.entry.value;
              var c := Filed(file.value, x.config.persistent);
              if c.path == x.socket && c.secrets == x.secrets && Effective.SameConfiguration(c.config, x.config)
              then op in t.answers && t.answers[op] == Unchanged
              else
                && op !in t.answers && ReloadingAt(t, op)
                && (if c.path == x.socket then t.ops[op].reload.Selecting? else t.ops[op].reload.Planning?)
                && t.ops[op].reload.candidate == c
  {
    hide ReloadNext; hide ReloadEnabled; hide Effective.SameConfiguration;
    var s1 := ReloadNext(acc, s, Prepare(op));
    PrepareDecides(acc, s, op);
    if CanReload(acc, s) {
      ReadDecides(acc, s1, op, file);
      if file.Some? { CompareDecides(acc, ReloadNext(acc, s1, Read(op, file)), op); }
    }
  }

  lemma PrepareDecides(acc: bool, s: Slot, op: OpId)
    requires ReloadEnabled(s, Prepare(op)) && op !in s.answers
    ensures var t := ReloadNext(acc, s, Prepare(op));
            if !CanReload(acc, s) then op in t.answers && t.answers[op] == Failed
            else
              && op !in t.answers && ReloadingAt(t, op) && t.ops[op].reload.Reading? && t.entry.Some?
              && var got, x := t.ops[op].reload.got, s.entry.value;
                 && got.secrets == x.secrets && got.socket == x.socket && got.persistent == x.config.persistent
                 && t.entry.value.config == x.config
  {
    hide Pruned; hide Reply;
    if s.entry.Some? {
      SessionProperties.PrunedUntouched(s);
      PrunedEntry(s);
    }
  }

  lemma ReadDecides(acc: bool, s: Slot, op: OpId, file: Option<Candidate>)
    requires ReloadingAt(s, op) && s.ops[op].reload.Reading? && op !in s.answers
    ensures var t, got := ReloadNext(acc, s, Read(op, file)), s.ops[op].reload.got;
            if file.None? then op in t.answers && t.answers[op] == Failed
            else
              && op !in t.answers && ReloadingAt(t, op) && t.entry == s.entry
              && t.ops[op].reload == Comparing(got, Filed(file.value, got.persistent))
  {
    hide Reply;
  }

  lemma CompareDecides(acc: bool, s: Slot, op: OpId)
    requires ReloadingAt(s, op) && s.ops[op].reload.Comparing? && op !in s.answers && s.entry.Some?
    ensures var t, got, c := ReloadNext(acc, s, Compare(op)), s.ops[op].reload.got, s.ops[op].reload.candidate;
            if c.path == got.socket && c.secrets == got.secrets && Effective.SameConfiguration(c.config, s.entry.value.config)
            then op in t.answers && t.answers[op] == Unchanged
            else
              && op !in t.answers && ReloadingAt(t, op)
              && (if c.path == got.socket then t.ops[op].reload.Selecting? else t.ops[op].reload.Planning?)
              && t.ops[op].reload.candidate == c
  {
    hide Reply; hide Effective.SameConfiguration;
  }

  lemma PrunedEntry(s: Slot)
    requires s.entry.Some?
    ensures Pruned(s).entry == Some(s.entry.value.(retired := s.entry.value.retired - FinishedRetired(s)))
  {
    hide Drop;
  }

  /** The rest of a reload that moves to a new socket, if the new listener starts. */
  function MoveAlone(s: Slot, op: OpId): Slot {
    var s2 := ReloadNext(true, ReloadNext(true, s, Plan(op)), Reload.StartReplacement(op, true));
    var s4 := ReloadNext(true, ReloadNext(true, s2, CutOver(op)), StoreGate(op));
    ReloadNext(true, s4, Reload.Retire(op))
  }

  /** Room for one more listener: a number and a place among the retired. */
  predicate HasRoom(s: Slot)
    requires s.entry.Some?
  {
    var x := s.entry.value;
    x.listenerGeneration < U64_MAX && |x.retired - FinishedListeners(s)| < MAX_RETIRED_LISTENERS
  }

  /** A reload that moves to a new socket succeeds if there is room: the new listener serves the file, the old one drains. */
  lemma MoveSucceeds(s: Slot, op: OpId)
    requires ReloadEnabled(s, Plan(op)) && CurrentInRange(s) && op !in s.answers
    requires IsRunning(s) && s.entry.value.current.Some? && HasRoom(s)
    ensures var t, x, c := MoveAlone(s, op), s.entry.value, s.ops[op].reload.candidate;
            var next := x.listenerGeneration + 1;
            var retired := x.retired - FinishedListeners(s) + {x.current.value};
            && op in t.answers && t.answers[op] == Reloaded && t.gate == next
            && t.entry == Some(Session(Running, c.config, c.secrets, x.source, c.path, Min(x.generation + 1, U64_MAX), next,
                                       Some(|s.runtimes|), retired, |retired|))
            && |t.runtimes| == |s.runtimes| + 1 && t.runtimes[|s.runtimes|].generation == next
            && t.runtimes[|s.runtimes|].gens == [Generation(c.config, c.secrets, s.seed)] && t.runtimes[|s.runtimes|].socket == c.path
            && t.runtimes[x.current.value].retired && t.runtimes[x.current.value].retirement
  {
    hide ReloadNext; hide ReloadEnabled; hide HasRoom; hide CutSlot;
    var s1 := ReloadNext(true, s, Plan(op));
    PlanGoesOn(s, op);
    StartGoesOn(s1, op);
    var s2 := ReloadNext(true, s1, Reload.StartReplacement(op, true));
    CutIsActions(s2, op);
    CutLands(s2, op);
  }

  /** The plan has chosen the next number. */
  ghost predicate Planned(s: Slot, t: Slot, op: OpId) {
    && ReloadingAt(s, op) && s.ops[op].reload.Planning? && ReloadingAt(t, op) && t.ops[op].reload.Starting?
    && CurrentInRange(t) && |t.runtimes| == |s.runtimes| && t.seed == s.seed
    && IsRunning(s) && t.entry == Some(s.entry.value.(retired := s.entry.value.retired - FinishedListeners(s)))
    && t.ops[op].reload.candidate == s.ops[op].reload.candidate && t.ops[op].reload.next == s.entry.value.listenerGeneration + 1
  }

  /** The replacement has started. */
  ghost predicate Started(t: Slot, u: Slot, op: OpId) {
    && ReloadingAt(t, op) && t.ops[op].reload.Starting? && ReloadEnabled(u, CutOver(op)) && CanCut(true, u)
    && |u.runtimes| == |t.runtimes| + 1 && u.seed == t.seed && u.entry == t.entry
    && var c, d := t.ops[op].reload, u.ops[op].reload;
       && d.candidate == c.candidate && d.next == c.next && d.replacement == |t.runtimes|
       && u.runtimes[|t.runtimes|] == NewRuntime(c.next, c.candidate.path, Generation(c.candidate.config, c.candidate.secrets, t.seed), op)
  }

  lemma PlanGoesOn(s: Slot, op: OpId)
    requires ReloadEnabled(s, Plan(op)) && CurrentInRange(s) && op !in s.answers
    requires IsRunning(s) && s.entry.value.current.Some? && HasRoom(s)
    ensures Planned(s, ReloadNext(true, s, Plan(op)), op)
  {
    hide DoPlan; hide FinishedListeners; hide SeenOf; hide Pruned;
    SessionTables.PlanAnswer(true, s, op);
    SessionTables.PrunedPlain(s);
    SessionTables.PlanCarries(s, op);
  }

  lemma StartGoesOn(s: Slot, op: OpId)
    requires ReloadingAt(s, op) && s.ops[op].reload.Starting? && CurrentInRange(s) && IsRunning(s) && s.entry.value.current.Some?
    ensures Started(s, ReloadNext(true, s, Reload.StartReplacement(op, true)), op)
  {
  }

  lemma CutLands(s: Slot, op: OpId)
    requires ReloadEnabled(s, CutOver(op)) && CanCut(true, s) && s.ops[op].reload.replacement < |s.runtimes|
    requires s.ops[op].reload.replacement != s.entry.value.current.value
    ensures var t, c, h := CutSlot(s, op), s.ops[op].reload, s.entry.value.current.value;
            && op in t.answers && t.answers[op] == Reloaded && t.gate == c.next
            && t.entry == Some(Session(Running, c.candidate.config, c.candidate.secrets, s.entry.value.source, c.candidate.path,
                                       Min(s.entry.value.generation + 1, U64_MAX), c.next, Some(c.replacement),
                                       s.entry.value.retired + {h}, |s.entry.value.retired + {h}|))
            && |t.runtimes| == |s.runtimes|
            && t.runtimes[c.replacement] == s.runtimes[c.replacement].(place := Current)
            && t.runtimes[h] == s.runtimes[h].(retired := true, retirement := true, place := Retired)
  {
  }

  // ----- connections and exits -----

  /** A listener takes a connection, checks the gate, pins its policy and asks for a permit. */
  function AcceptAlone(s: Slot, h: Handle, conn: ConnId): Slot {
    ListenerNext(ListenerNext(ListenerNext(ListenerNext(s, AcceptTake(h)), AcceptGate(h)), AcceptPin(h)), AcceptPermit(h, conn))
  }

  /** A connection is served exactly if its listener has the gate's number and a permit is left, and then by the policy selected now. */
  lemma AcceptsExactly(s: Slot, h: Handle, conn: ConnId)
    requires ListenerEnabled(s, AcceptTake(h)) && s.runtimes[h].gens != [] && conn !in s.conns
    ensures var t, r := AcceptAlone(s, h, conn), s.runtimes[h];
            && t.runtimes == s.runtimes
            && if s.gate == r.generation && s.permits > 0
               then t.conns == s.conns[conn := Conn(h, Selected(r))] && t.permits == s.permits - 1
               else t.conns == s.conns && t.permits == s.permits
  {
    hide ListenerNext;
    ChecksGate(s, h);
    hide ListenerEnabled;
    if s.gate == s.runtimes[h].generation { AsksPermit(s, h, conn); } else { StepPin(s, h); StepPermit(s, h, conn); }
  }

  lemma ChecksGate(s: Slot, h: Handle)
    requires ListenerEnabled(s, AcceptTake(h))
    ensures h < |s.runtimes| && s.runtimes[h].accept == Idle
    ensures ListenerNext(ListenerNext(s, AcceptTake(h)), AcceptGate(h))
         == if s.gate == s.runtimes[h].generation then Update(s, h, s.runtimes[h].(accept := Passed)) else s
  {
    hide ListenerNext;
    StepTake(s, h);
    StepGate(Update(s, h, s.runtimes[h].(accept := Taken)), h);
    assert s.runtimes[h := s.runtimes[h]] == s.runtimes;
  }

  lemma AsksPermit(s: Slot, h: Handle, conn: ConnId)
    requires h < |s.runtimes| && s.runtimes[h].accept == Idle && s.runtimes[h].gens != [] && conn !in s.conns
    ensures ListenerNext(ListenerNext(Update(s, h, s.runtimes[h].(accept := Passed)), AcceptPin(h)), AcceptPermit(h, conn))
         == if s.permits > 0 then s.(permits := s.permits - 1, conns := s.conns[conn := Conn(h, Selected(s.runtimes[h]))]) else s
  {
    hide ListenerNext; hide Update;
    PinsAlone(s, h);
    PermitsAlone(s, h, conn);
  }

  lemma PinsAlone(s: Slot, h: Handle)
    requires h < |s.runtimes| && s.runtimes[h].gens != []
    ensures ListenerNext(Update(s, h, s.runtimes[h].(accept := Passed)), AcceptPin(h))
         == Update(s, h, s.runtimes[h].(accept := Pinned(Selected(s.runtimes[h]))))
  {
    hide ListenerNext;
    var r := s.runtimes[h];
    StepPin(Update(s, h, r.(accept := Passed)), h);
    assert s.runtimes[h := r.(accept := Passed)][h := r.(accept := Pinned(Selected(r)))] == s.runtimes[h := r.(accept := Pinned(Selected(r)))];
  }

  lemma PermitsAlone(s: Slot, h: Handle, conn: ConnId)
    requires h < |s.runtimes| && s.runtimes[h].accept == Idle && s.runtimes[h].gens != [] && conn !in s.conns
    ensures ListenerNext(Update(s, h, s.runtimes[h].(accept := Pinned(Selected(s.runtimes[h])))), AcceptPermit(h, conn))
         == if s.permits > 0 then s.(permits := s.permits - 1, conns := s.conns[conn := Conn(h, Selected(s.runtimes[h]))]) else s
  {
    hide ListenerNext;
    var r := s.runtimes[h];
    StepPermit(Update(s, h, r.(accept := Pinned(Selected(r)))), h, conn);
    assert s.runtimes[h := r.(accept := Pinned(Selected(r)))][h := r] == s.runtimes;
    assert r.(accept := Idle) == r;
  }

  lemma StepTake(s: Slot, h: Handle)
    requires ListenerEnabled(s, AcceptTake(h))
    ensures ListenerNext(s, AcceptTake(h)) == Update(s, h, s.runtimes[h].(accept := Taken)) && s.runtimes[h].accept == Idle
  {
  }

  lemma StepGate(s: Slot, h: Handle)
    requires h < |s.runtimes| && s.runtimes[h].accept == Taken
    ensures ListenerNext(s, AcceptGate(h))
         == Update(s, h, s.runtimes[h].(accept := if s.gate == s.runtimes[h].generation then Passed else Idle))
  {
  }

  lemma StepPin(s: Slot, h: Handle)
    requires h < |s.runtimes| && s.runtimes[h].gens != []
    ensures ListenerNext(s, AcceptPin(h))
         == if s.runtimes[h].accept.Passed? then Update(s, h, s.runtimes[h].(accept := Pinned(Selected(s.runtimes[h])))) else s
  {
  }

  lemma StepPermit(s: Slot, h: Handle, conn: ConnId)
    requires h < |s.runtimes| && conn !in s.conns
    ensures ListenerNext(s, AcceptPermit(h, conn)) ==
            if !s.runtimes[h].accept.Pinned? then s
            else
              var t := Update(s, h, s.runtimes[h].(accept := Idle));
              if s.permits > 0 then t.(permits := s.permits - 1, conns := s.conns[conn := Conn(h, s.runtimes[h].accept.gen)]) else t
  {
  }

  /** A listener that has exited reports it exactly if it was retired or still has the gate's number. */
  lemma ReportsExactly(s: Slot, h: Handle)
    requires ListenerEnabled(s, ReadRetired(h))
    ensures var t := ListenerNext(ListenerNext(s, ReadRetired(h)), Report(h));
            t.events == if s.runtimes[h].retired || s.gate == s.runtimes[h].generation
                        then s.events + multiset{Event(s.runtimes[h].generation, h)} else s.events
  {
    var s1 := ListenerNext(s, ReadRetired(h));
    assert s1.runtimes[h] == s.runtimes[h].(task := Checked(s.runtimes[h].retired));
  }
}
