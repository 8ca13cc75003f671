/**
 One session of the daemon as a step protocol (src/control/session.rs, src/control/reload.rs,
 src/proxy_runtime/rama.rs and the accept loop of src/proxy_runtime/rama/ingress.rs).

 A `Slot` is everything that belongs to one session id: the registry entry, the `provisioning` mark, the
 reload lock, the listener gate, every listener ever started, the operations in flight and the exit events
 not yet handled. An `Action` is one indivisible piece of work: a registry critical section, or one effect
 that a task without the registry lock can observe. The listener cutover of a reload holds the registry lock
 over three actions, because accept loops and exiting listeners read the gate without that lock.
 */
module Slots {
  import opened Basics
  import opened Config
  import Effective

  const MAX_RETIRED_LISTENERS: nat := 8
  const MAX_POLICY_GENERATIONS: nat := 8

  type SessionId = string
  type OpId = nat
  type ConnId = nat
  type Handle = nat  // index of a listener in `Slot.runtimes`

  /** The operation id of a visit of shutdown_all. */
  const SWEEPER: OpId := 0

  datatype Lifecycle = Running | Stopping

  /** A policy generation: the policy is `Compile(config, seed)`, so it is stored by its inputs. */
  datatype Generation = Generation(config: SessionConfig, secrets: Secrets, seed: Seed)

  /** The task of a listener. `Checked` is an exited task that has read its `retired` flag but not the gate. */
  datatype Task = Accepting | Draining | Exited | Checked(retired: bool) | Reported | Finished

  /** Progress of the accept branch: connection taken, gate passed, policy generation cloned. */
  datatype Accept = Idle | Taken | Passed | Pinned(gen: nat)

  /** Who owns the `ProxyRuntime` handle of a listener. `Gone` means that it was dropped. */
  datatype Place = Held(op: OpId) | Current | Retired | Gone

  /**
   `gens` lists every policy generation the listener ever selected; the last one is selected now.
   `tracked` is the bounded `generations` vector, as indices into `gens`.
   `place` is a history variable: no action reads it.
   */
  datatype Runtime = Runtime(
    generation: nat, socket: string, gens: seq<Generation>, tracked: seq<nat>,
    retired: bool, retirement: bool, cancelled: bool, aborted: bool,
    task: Task, accept: Accept, place: Place)

  datatype Conn = Conn(runtime: Handle, gen: nat)

  /** An exit event. Handlers read `generation` only; `sender` is history. */
  datatype Event = Event(generation: nat, sender: Handle)

  datatype Session = Session(
    lifecycle: Lifecycle, config: SessionConfig, secrets: Secrets, source: Option<string>, socket: string,
    generation: nat, listenerGeneration: nat,
    current: Option<Handle>, retired: set<Handle>, draining: nat)

  /** What a reload must not touch unless it reports success. */
  datatype Core = Core(
    config: SessionConfig, secrets: Secrets, socket: string,
    generation: nat, listenerGeneration: nat, gate: nat)

  /** What a reload captured in its first critical section; `core` is history. */
  datatype Captured = Captured(secrets: Secrets, socket: string, persistent: bool, core: Core)

  datatype Candidate = Candidate(config: SessionConfig, secrets: Secrets, path: string)

  datatype EndKind = Stop | Remove | Exit(event: Event) | Sweep

  datatype EndPc = Deciding | Shutting(owned: set<Handle>) | Erasing | Counting

  datatype ReloadPc =
    | Preparing
    | Reading(got: Captured)
    | Comparing(got: Captured, candidate: Candidate)
    | Selecting(got: Captured, candidate: Candidate)
    | Planning(got: Captured, candidate: Candidate)
    | Starting(got: Captured, candidate: Candidate, next: nat)
    | CuttingOver(got: Captured, candidate: Candidate, next: nat, replacement: Handle)
    | StoringGate(prior: Handle)
    | Retiring(prior: Handle)
    | Discarding(got: Captured, replacement: Handle)

  datatype Goal = ToEnd(kind: EndKind) | ToReload

  datatype Op =
    | StartingFirst(config: SessionConfig, secrets: Secrets, source: Option<string>)
    | Unreserving
    | Publishing(config: SessionConfig, secrets: Secrets, source: Option<string>, first: Handle)
    | Locating(goal: Goal)
    | AwaitingLock(goal: Goal)
    | Ending(kind: EndKind, end: EndPc)
    | Reloading(reload: ReloadPc)

  datatype Answer = Reloaded | Unchanged | Failed

  datatype Slot = Slot(
    creator: OpId, entry: Option<Session>, reserved: bool, born: bool,
    gate: nat, seed: Seed, persistent: bool, permits: nat,
    lock: Option<OpId>, ops: map<OpId, Op>, answers: map<OpId, Answer>,
    runtimes: seq<Runtime>, committed: seq<Handle>,
    conns: map<ConnId, Conn>, events: multiset<Event>)

  /** create, stop, remove, runtime_exit, one visit of shutdown_all, and list (src/control/session.rs:106-357). */
  datatype Control =
    | StartFirst(op: OpId, path: Option<string>)
    | Unreserve(op: OpId)
    | Publish(op: OpId)
    | BeginEnd(op: OpId, kind: EndKind)
    | Deliver(op: OpId, event: Event)
    | Locate(op: OpId)
    | AcquireLock(op: OpId)
    | Decide(op: OpId)
    | Signal(op: OpId, h: Handle)
    | Abort(op: OpId, h: Handle)
    | Join(op: OpId, h: Handle)
    | AllJoined(op: OpId)
    | Erase(op: OpId)
    | Count(op: OpId)
    | Prune
    | Cancel(op: OpId)

  /** reload (src/control/reload.rs:21-286). */
  datatype Reload =
    | BeginReload(op: OpId)
    | Prepare(op: OpId)
    | Read(op: OpId, file: Option<Candidate>)
    | Compare(op: OpId)
    | Select(op: OpId)
    | Plan(op: OpId)
    | StartReplacement(op: OpId, ok: bool)
    | CutOver(op: OpId)
    | StoreGate(op: OpId)
    | Retire(op: OpId)

  /**
   Listener tasks: accept loop and connections (src/proxy_runtime/rama/ingress.rs:67-116), exit report
   (src/proxy_runtime/rama.rs:156-175).
   */
  datatype Listener =
    | AcceptTake(h: Handle)
    | AcceptGate(h: Handle)
    | AcceptPin(h: Handle)
    | AcceptPermit(h: Handle, conn: ConnId)
    | ConnEnd(conn: ConnId)
    | StopAccepting(h: Handle)
    | Drained(h: Handle)
    | Crash(h: Handle)
    | AbortExit(h: Handle)
    | ReadRetired(h: Handle)
    | Report(h: Handle)
    | TaskEnd(h: Handle)

  datatype Action = ByControl(control: Control) | ByReload(reload: Reload) | ByListener(listener: Listener)

  function CoreOf(x: Session, gate: nat): Core {
    Core(x.config, x.secrets, x.socket, x.generation, x.listenerGeneration, gate)
  }

  function Selected(r: Runtime): int { |r.gens| - 1 }

  predicate HasExited(r: Runtime) { !r.task.Accepting? && !r.task.Draining? }

  /** Listeners that an operation owns locally. */
  function Owned(op: Op): set<Handle> {
    match op
    case Publishing(_, _, _, first) => {first}
    case Ending(_, Shutting(owned)) => owned
    case Reloading(CuttingOver(_, _, _, replacement)) => {replacement}
    case Reloading(StoringGate(prior)) => {prior}
    case Reloading(Retiring(prior)) => {prior}
    case Reloading(Discarding(_, replacement)) => {replacement}
    case _ => {}
  }

  /** shutdown_all keeps the lock only while it visits; every other operation keeps it to its end. */
  predicate HoldsLock(op: Op) {
    match op
    case Ending(kind, end) => kind.Sweep? ==> end.Deciding?
    case Reloading(_) => true
    case _ => false
  }

  predicate MidCutover(op: Op) {
    op.Reloading? && (op.reload.StoringGate? || op.reload.Retiring?)
  }

  /** True while an operation holds the registry lock across actions. */
  predicate RegistryHeld(s: Slot) {
    s.lock.Some? && s.lock.value in s.ops && MidCutover(s.ops[s.lock.value])
  }

  /** Points at which an aborted task is dropped: it waits for a lock or for a shutdown to finish. */
  predicate AtAwait(op: Op) {
    match op
    case StartingFirst(_, _, _) => false
    case Ending(_, Counting) => false
    case Reloading(Reading(_)) => false
    case Reloading(Starting(_, _, _)) => false
    case Reloading(StoringGate(_)) => false
    case Reloading(Retiring(_)) => false
    case _ => true
  }

  /** Exit handling runs in `session_cleanups`, which shutdown awaits and does not abort. */
  predicate IsCleanup(op: Op) {
    match op
    case Locating(ToEnd(Exit(_))) => true
    case AwaitingLock(ToEnd(Exit(_))) => true
    case Ending(Exit(_), _) => true
    case _ => false
  }

  predicate IsSweep(op: Op) {
    match op
    case Locating(ToEnd(Sweep)) => true
    case AwaitingLock(ToEnd(Sweep)) => true
    case Ending(Sweep, _) => true
    case _ => false
  }

  // ----- registry-entry updates, shared with the imperative registry -----

  predicate AlreadyEnding(x: Session, kind: EndKind) {
    match kind
    case Stop => x.lifecycle == Stopping
    case Remove => x.lifecycle == Stopping && x.current.None?
    case Exit(_) => x.lifecycle == Stopping && x.current.None?
    case Sweep => false
  }

  function AllListeners(x: Session): set<Handle> {
    x.retired + (if x.current.Some? then {x.current.value} else {})
  }

  function Ended(x: Session): Session {
    x.(lifecycle := Stopping, retired := {}, current := None)
  }

  function CutOverEntry(x: Session, candidate: Candidate, next: nat, replacement: Handle): Session {
    x.(current := Some(replacement), config := candidate.config, secrets := candidate.secrets,
    socket := candidate.path, generation := Min(x.generation + 1, U64_MAX), listenerGeneration := next)
  }

  // ----- slot updates -----

  function MoveTo(s: Slot, hs: set<Handle>, p: Place): (s': Slot)
    ensures s' == s.(runtimes := s'.runtimes) && |s'.runtimes| == |s.runtimes|
  {
    s.(runtimes := seq(|s.runtimes|, i requires 0 <= i < |s.runtimes| =>
      if i in hs then s.runtimes[i].(place := p) else s.runtimes[i]))
  }

  /** `Drop for ProxyRuntime`: cancel, abort, release the socket guard. */
  function Drop(s: Slot, hs: set<Handle>): (s': Slot)
    ensures s' == s.(runtimes := s'.runtimes) && |s'.runtimes| == |s.runtimes|
  {
    s.(runtimes := seq(|s.runtimes|, i requires 0 <= i < |s.runtimes| =>
      if i in hs then s.runtimes[i].(place := Gone, cancelled := true, aborted := true) else s.runtimes[i]))
  }

  function Update(s: Slot, h: Handle, r: Runtime): Slot
    requires h < |s.runtimes|
  {
    s.(runtimes := s.runtimes[h := r])
  }

  function Go(s: Slot, op: OpId, next: Op): Slot { s.(ops := s.ops[op := next]) }

  /** The operation returns: its lock guard and its listeners are dropped. */
  function Return(s: Slot, op: OpId): (s': Slot)
    requires op in s.ops
    ensures s' == s.(runtimes := s'.runtimes, ops := s.ops - {op}, lock := s'.lock)
  {
    Drop(s, Owned(s.ops[op])).(
    ops := s.ops - {op},
    lock := if s.lock == Some(op) then None else s.lock)
  }

  function Reply(s: Slot, op: OpId, answer: Answer): (s': Slot)
    requires op in s.ops
    ensures s' == s.(runtimes := s'.runtimes, ops := s.ops - {op}, lock := s'.lock, answers := s.answers[op := answer])
  {
    Return(s, op).(answers := s.answers[op := answer])
  }

  function FinishedRetired(s: Slot): set<Handle>
    requires s.entry.Some?
  {
    set h | h in s.entry.value.retired && h < |s.runtimes| && s.runtimes[h].task.Finished?
  }

  /** `retired_runtimes.retain(|runtime| !runtime.is_finished())`. */
  function Pruned(s: Slot): Slot
    requires s.entry.Some?
  {
    var dead := FinishedRetired(s);
    Drop(s, dead).(entry := Some(s.entry.value.(retired := s.entry.value.retired - dead)))
  }

  function Counted(s: Slot): Slot
    requires s.entry.Some?
  {
    s.(entry := Some(s.entry.value.(draining := |s.entry.value.retired|)))
  }

  /** A policy generation is alive while it is selected, being cloned, or pinned by a connection. */
  predicate Live(s: Slot, h: Handle, g: nat)
    requires h < |s.runtimes|
  {
    || g == Selected(s.runtimes[h])
    || s.runtimes[h].accept == Pinned(g)
    || (exists c :: c in s.conns && s.conns[c] == Conn(h, g))
  }

  function KeepLive(s: Slot, h: Handle, tracked: seq<nat>): (kept: seq<nat>)
    requires h < |s.runtimes|
    ensures |kept| <= |tracked|
    ensures forall g :: g in kept <==> g in tracked && Live(s, h, g)
  {
    if tracked == [] then []
    else if Live(s, h, tracked[0]) then [tracked[0]] + KeepLive(s, h, tracked[1..])
    else KeepLive(s, h, tracked[1..])
  }

  function NewRuntime(generation: nat, socket: string, gen: Generation, op: OpId): Runtime {
    Runtime(generation, socket, [gen], [0], false, false, false, false, Accepting, Idle, Held(op))
  }

  // ----- steps -----

  function DoStartFirst(s: Slot, op: OpId, path: Option<string>): (s': Slot)
    requires op in s.ops && s.ops[op].StartingFirst?
    ensures s'.answers == s.answers
  {
    var c := s.ops[op];
    if path.None? then Go(s, op, Unreserving)
    else
      Go(s, op, Publishing(c.config, c.secrets, c.source, |s.runtimes|)).(
      runtimes := s.runtimes + [NewRuntime(1, path.value, Generation(c.config, c.secrets, s.seed), op)],
      committed := s.committed + [|s.runtimes|])
  }

  function DoPublish(accepting: bool, s: Slot, op: OpId): (s': Slot)
    requires op in s.ops && s.ops[op].Publishing? && s.ops[op].first < |s.runtimes|
    ensures s'.answers == s.answers
  {
    var c := s.ops[op];
    if !accepting then Return(s, op).(reserved := false)
    else
      MoveTo(s, {c.first}, Current).(
      reserved := false, born := true, ops := s.ops - {op},
      entry := Some(Session(Running, c.config, c.secrets, c.source, s.runtimes[c.first].socket,
                            1, 1, Some(c.first), {}, 0)))
  }

  function DoLocate(s: Slot, op: OpId): (s': Slot)
    requires op in s.ops && s.ops[op].Locating?
    ensures s'.answers == s.answers
  {
    if s.entry.None? then Return(s, op) else Go(s, op, AwaitingLock(s.ops[op].goal))
  }

  function DoAcquire(s: Slot, op: OpId): (s': Slot)
    requires op in s.ops && s.ops[op].AwaitingLock?
    ensures s'.answers == s.answers
  {
    var goal := s.ops[op].goal;
    Go(s, op, if goal.ToReload? then Reloading(Preparing) else Ending(goal.kind, Deciding)).(lock := Some(op))
  }

  /** The retired listeners with number `g`. */
  function Named(s: Slot, g: nat): set<Handle>
    requires s.entry.Some?
  {
    set h | h in s.entry.value.retired && h < |s.runtimes| && s.runtimes[h].generation == g
  }

  /** `retired_runtimes.retain(|runtime| runtime.listener_generation() != g)`. */
  function DropNamed(s: Slot, g: nat): Slot
    requires s.entry.Some?
  {
    var x := s.entry.value;
    Counted(Drop(s, Named(s, g)).(entry := Some(x.(retired := x.retired - Named(s, g)))))
  }

  /** The session stops; its listeners move to the operation. shutdown_all gives the lock back at once. */
  function TakeAll(s: Slot, op: OpId, kind: EndKind): Slot
    requires s.entry.Some?
  {
    var all := AllListeners(s.entry.value);
    MoveTo(s, all, Held(op)).(
    entry := Some(Ended(s.entry.value)),
    ops := s.ops[op := Ending(kind, Shutting(all))],
    lock := if kind.Sweep? then None else s.lock)
  }

  function DoDecide(s: Slot, op: OpId): (s': Slot)
    requires op in s.ops && s.ops[op].Ending?
    ensures s'.answers == s.answers
  {
    var kind := s.ops[op].kind;
    if s.entry.None? then Return(s, op)
    else if kind.Exit? && s.entry.value.listenerGeneration != kind.event.generation then
      Return(DropNamed(s, kind.event.generation), op)
    else if AlreadyEnding(s.entry.value, kind) then Return(s, op)
    else TakeAll(s, op, kind)
  }

  function DoJoin(s: Slot, op: OpId, h: Handle): Slot
    requires op in s.ops
  {
    match s.ops[op]
    case Ending(kind, Shutting(owned)) => Go(Drop(s, {h}), op, Ending(kind, Shutting(owned - {h})))
    case Reloading(Discarding(_, _)) => Reply(s, op, Failed)
    case _ => s
  }

  function DoErase(s: Slot, op: OpId): (s': Slot)
    requires op in s.ops && s.ops[op].Ending?
    ensures s'.answers == s.answers
  {
    if s.entry.None? then Return(s, op)
    else Go(s, op, Ending(s.ops[op].kind, Counting)).(entry := None)
  }

  function DoPrepare(accepting: bool, s: Slot, op: OpId): (s': Slot)
    requires op in s.ops
    ensures s'.answers.Keys <= s.answers.Keys + {op}
  {
    if s.entry.None? then Reply(s, op, Failed)
    else
      var p := Counted(Pruned(s));
      var x := p.entry.value;
      if x.lifecycle == Stopping || !accepting || x.source.None? then Reply(p, op, Failed)
      else
        Go(p, op, Reloading(Reading(
            Captured(x.secrets, x.socket, x.config.persistent, CoreOf(x, s.gate)))))
  }

  function DoRead(s: Slot, op: OpId, file: Option<Candidate>): (s': Slot)
    requires op in s.ops && s.ops[op].Reloading? && s.ops[op].reload.Reading?
    ensures s'.answers.Keys <= s.answers.Keys + {op}
  {
    var got := s.ops[op].reload.got;
    if file.None? then Reply(s, op, Failed)
    else
      Go(s, op, Reloading(Comparing(
          got, file.value.(config := file.value.config.(persistent := got.persistent)))))
  }

  function DoCompare(s: Slot, op: OpId): (s': Slot)
    requires op in s.ops && s.ops[op].Reloading? && s.ops[op].reload.Comparing?
    ensures s'.answers.Keys <= s.answers.Keys + {op}
  {
    var got, candidate := s.ops[op].reload.got, s.ops[op].reload.candidate;
    if s.entry.None? then Reply(s, op, Failed)
    else
      var samePath := candidate.path == got.socket;
      if samePath && candidate.secrets == got.secrets
         && Effective.SameConfiguration(candidate.config, s.entry.value.config)
      then Reply(s, op, Unchanged)
      else Go(s, op, Reloading(if samePath then Selecting(got, candidate) else Planning(got, candidate)))
  }

  /** `generations.retain(|generation| generation.strong_count() > 0)`. */
  function Forget(s: Slot, h: Handle): Slot
    requires h < |s.runtimes|
  {
    Update(s, h, s.runtimes[h].(tracked := KeepLive(s, h, s.runtimes[h].tracked)))
  }

  /** The current listener selects a generation compiled from the candidate, and the entry stores the candidate. */
  function Reselect(s: Slot, h: Handle, candidate: Candidate): Slot
    requires h < |s.runtimes| && s.entry.Some?
  {
    var x, r := s.entry.value, s.runtimes[h];
    Update(s, h, r.(
                 gens := r.gens + [Generation(candidate.config, candidate.secrets, s.seed)],
                 tracked := r.tracked + [|r.gens|])).(
    entry := Some(x.(config := candidate.config, secrets := candidate.secrets,
                  generation := Min(x.generation + 1, U64_MAX), draining := |x.retired|)))
  }

  /** `replace_generation` and the commit of a reload that keeps its socket path. */
  function DoSelect(accepting: bool, s: Slot, op: OpId): (s': Slot)
    requires op in s.ops && s.ops[op].Reloading? && s.ops[op].reload.Selecting?
    requires s.entry.Some? && s.entry.value.current.Some? ==> s.entry.value.current.value < |s.runtimes|
    ensures s'.answers.Keys <= s.answers.Keys + {op}
  {
    if !accepting || s.entry.None? || s.entry.value.current.None? then Reply(s, op, Failed)
    else
      var h := s.entry.value.current.value;
      var kept := Forget(s, h);
      if |kept.runtimes[h].tracked| >= MAX_POLICY_GENERATIONS then Reply(kept, op, Failed)
      else Reply(Reselect(kept, h, s.ops[op].reload.candidate), op, Reloaded)
  }

  function DoPlan(accepting: bool, s: Slot, op: OpId): (s': Slot)
    requires op in s.ops && s.ops[op].Reloading? && s.ops[op].reload.Planning?
    ensures s'.answers.Keys <= s.answers.Keys + {op}
  {
    var got, candidate := s.ops[op].reload.got, s.ops[op].reload.candidate;
    if !accepting || s.entry.None? then Reply(s, op, Failed)
    else
      var p := Pruned(s);
      var x := p.entry.value;
      if x.current.None? || x.listenerGeneration >= U64_MAX || |x.retired| >= MAX_RETIRED_LISTENERS
      then Reply(p, op, Failed)
      else Go(p, op, Reloading(Starting(got, candidate, x.listenerGeneration + 1)))
  }

  function DoStartReplacement(s: Slot, op: OpId, ok: bool): (s': Slot)
    requires op in s.ops && s.ops[op].Reloading? && s.ops[op].reload.Starting?
    ensures s'.answers.Keys <= s.answers.Keys + {op}
  {
    var c := s.ops[op].reload;
    if !ok then Reply(s, op, Failed)
    else
      var gen := Generation(c.candidate.config, c.candidate.secrets, s.seed);
      Go(s, op, Reloading(CuttingOver(c.got, c.candidate, c.next, |s.runtimes|))).(
      runtimes := s.runtimes + [NewRuntime(c.next, c.candidate.path, gen, op)])
  }

  /** Install the replacement and mark the listener it replaces; the registry lock stays held. */
  function Install(s: Slot, op: OpId, prior: Handle): Slot
    requires op in s.ops && s.ops[op].Reloading? && s.ops[op].reload.CuttingOver?
    requires s.entry.Some? && prior < |s.runtimes|
  {
    var c := s.ops[op].reload;
    Go(Update(MoveTo(s, {c.replacement}, Current), prior, s.runtimes[prior].(retired := true, place := Held(op))),
       op, Reloading(StoringGate(prior))).(
    entry := Some(CutOverEntry(s.entry.value, c.candidate, c.next, c.replacement)),
    committed := s.committed + [c.replacement])
  }

  function DoCutOver(accepting: bool, s: Slot, op: OpId): (s': Slot)
    requires op in s.ops && s.ops[op].Reloading? && s.ops[op].reload.CuttingOver?
    requires s.entry.Some? && s.entry.value.current.Some? ==> s.entry.value.current.value < |s.runtimes|
    ensures s'.answers.Keys <= s.answers.Keys + {op}
  {
    var c := s.ops[op].reload;
    if !accepting || s.entry.None? || s.entry.value.lifecycle == Stopping then
      Go(s, op, Reloading(Discarding(c.got, c.replacement)))
    else if s.entry.value.current.None? then
      Reply(s, op, Failed)  // src/control/reload.rs:267-271
    else
      Install(s, op, s.entry.value.current.value)
  }

  function DoStoreGate(s: Slot, op: OpId): (s': Slot)
    requires op in s.ops && s.ops[op].Reloading? && s.ops[op].reload.StoringGate?
    requires s.entry.Some?
    ensures s'.answers.Keys <= s.answers.Keys + {op}
  {
    Go(s, op, Reloading(Retiring(s.ops[op].reload.prior))).(gate := s.entry.value.listenerGeneration)
  }

  function DoRetire(s: Slot, op: OpId): (s': Slot)
    requires op in s.ops && s.ops[op].Reloading? && s.ops[op].reload.Retiring?
    requires s.entry.Some? && s.ops[op].reload.prior < |s.runtimes|
    ensures s'.answers.Keys <= s.answers.Keys + {op}
  {
    var prior := s.ops[op].reload.prior;
    var x := s.entry.value;
    Counted(Update(s, prior, s.runtimes[prior].(retirement := true, place := Retired)).(
            entry := Some(x.(retired := x.retired + {prior})),
            ops := s.ops - {op}, answers := s.answers[op := Reloaded],
            lock := if s.lock == Some(op) then None else s.lock))
  }

  /** The action is a registry critical section. */
  predicate IsRegistry(a: Action) {
    match a
    case ByControl(c) => c.Unreserve? || c.Publish? || c.Locate? || c.Decide? || c.Erase? || c.Prune?
    case ByReload(r) => r.Prepare? || r.Compare? || r.Select? || r.Plan? || r.CutOver?
    case ByListener(_) => false
  }

  predicate ShuttingDown(s: Slot, op: OpId, h: Handle) {
    op in s.ops && h in Owned(s.ops[op]) && h < |s.runtimes| &&
    match s.ops[op]
    case Ending(_, Shutting(_)) => true
    case Reloading(Discarding(_, _)) => true
    case _ => false
  }

  /** Every handle stored in the slot names a listener; an invariant of every run. */
  predicate CurrentInRange(s: Slot) {
    s.entry.Some? && s.entry.value.current.Some? ==> s.entry.value.current.value < |s.runtimes|
  }

  predicate EndingAt(s: Slot, op: OpId) { op in s.ops && s.ops[op].Ending? }

  predicate ReloadingAt(s: Slot, op: OpId) { op in s.ops && s.ops[op].Reloading? }

  predicate ControlEnabled(accepting: bool, s: Slot, c: Control) {
    match c
    case StartFirst(op, _) => op in s.ops && s.ops[op].StartingFirst?
    case Unreserve(op) => op in s.ops && s.ops[op].Unreserving?
    case Publish(op) => op in s.ops && s.ops[op].Publishing? && s.ops[op].first < |s.runtimes|
    case BeginEnd(op, kind) => op !in s.ops && !kind.Exit?
    case Deliver(op, e) => op !in s.ops && e in s.events
    case Locate(op) => op in s.ops && s.ops[op].Locating?
    case AcquireLock(op) => op in s.ops && s.ops[op].AwaitingLock? && s.lock.None?
    case Decide(op) => EndingAt(s, op) && s.ops[op].end.Deciding?
    case Signal(op, h) => ShuttingDown(s, op, h)
    case Abort(op, h) => ShuttingDown(s, op, h) && s.runtimes[h].cancelled
    case Join(op, h) => ShuttingDown(s, op, h) && s.runtimes[h].cancelled && s.runtimes[h].task.Finished?
    case AllJoined(op) => EndingAt(s, op) && !s.ops[op].kind.Sweep? && s.ops[op].end == Shutting({})
    case Erase(op) => EndingAt(s, op) && s.ops[op].end.Erasing?
    case Count(op) => EndingAt(s, op) && s.ops[op].end.Counting?
    case Prune => s.entry.Some?
    case Cancel(op) =>
      !accepting && op in s.ops && AtAwait(s.ops[op]) && !IsCleanup(s.ops[op]) && !IsSweep(s.ops[op])
  }

  function ControlNext(accepting: bool, s: Slot, c: Control): Slot {
    if !ControlEnabled(accepting, s, c) then s
    else
    match c
    case StartFirst(op, path) => DoStartFirst(s, op, path)
    case Unreserve(op) => Return(s, op).(reserved := false)
    case Publish(op) => DoPublish(accepting, s, op)
    case BeginEnd(op, kind) => Go(s, op, Locating(ToEnd(kind)))
    case Deliver(op, e) => Go(s, op, Locating(ToEnd(Exit(e)))).(events := s.events - multiset{e})
    case Locate(op) => DoLocate(s, op)
    case AcquireLock(op) => DoAcquire(s, op)
    case Decide(op) => DoDecide(s, op)
    case Signal(_, h) => Update(s, h, s.runtimes[h].(cancelled := true))
    case Abort(_, h) => Update(s, h, s.runtimes[h].(aborted := true))
    case Join(op, h) => DoJoin(s, op, h)
    case AllJoined(op) => Go(s, op, Ending(s.ops[op].kind, Erasing))
    case Erase(op) => DoErase(s, op)
    case Count(op) => Return(s, op)
    case Prune => Counted(Pruned(s))
    case Cancel(op) => Return(s, op)
  }

  predicate ReloadEnabled(s: Slot, r: Reload) {
    match r
    case BeginReload(op) => op !in s.ops
    case Prepare(op) => ReloadingAt(s, op) && s.ops[op].reload.Preparing?
    case Read(op, _) => ReloadingAt(s, op) && s.ops[op].reload.Reading?
    case Compare(op) => ReloadingAt(s, op) && s.ops[op].reload.Comparing?
    case Select(op) => ReloadingAt(s, op) && s.ops[op].reload.Selecting? && CurrentInRange(s)
    case Plan(op) => ReloadingAt(s, op) && s.ops[op].reload.Planning?
    case StartReplacement(op, _) => ReloadingAt(s, op) && s.ops[op].reload.Starting?
    case CutOver(op) => ReloadingAt(s, op) && s.ops[op].reload.CuttingOver? && CurrentInRange(s)
    case StoreGate(op) => ReloadingAt(s, op) && s.ops[op].reload.StoringGate? && s.entry.Some?
    case Retire(op) =>
      ReloadingAt(s, op) && s.ops[op].reload.Retiring? && s.ops[op].reload.prior < |s.runtimes| && s.entry.Some?
  }

  function ReloadNext(accepting: bool, s: Slot, r: Reload): Slot {
    if !ReloadEnabled(s, r) then s
    else
    match r
    case BeginReload(op) => Go(s, op, Locating(ToReload))
    case Prepare(op) => DoPrepare(accepting, s, op)
    case Read(op, file) => DoRead(s, op, file)
    case Compare(op) => DoCompare(s, op)
    case Select(op) => DoSelect(accepting, s, op)
    case Plan(op) => DoPlan(accepting, s, op)
    case StartReplacement(op, ok) => DoStartReplacement(s, op, ok)
    case CutOver(op) => DoCutOver(accepting, s, op)
    case StoreGate(op) => DoStoreGate(s, op)
    case Retire(op) => DoRetire(s, op)
  }

  predicate ListenerEnabled(s: Slot, l: Listener) {
    if l.ConnEnd? then l.conn in s.conns
    else
      l.h < |s.runtimes| &&
      var r := s.runtimes[l.h];
      match l
      case AcceptTake(_) => r.task.Accepting? && r.accept.Idle? && !r.cancelled && !r.retirement
      case AcceptGate(_) => r.accept.Taken?
      case AcceptPin(_) => r.accept.Passed? && r.gens != []
      case AcceptPermit(_, conn) => r.accept.Pinned? && conn !in s.conns
      case StopAccepting(_) => r.task.Accepting? && r.accept.Idle? && (r.cancelled || r.retirement)
      case Drained(h) => r.task.Draining? && forall c :: c in s.conns ==> s.conns[c].runtime != h
      case Crash(_) => r.task.Accepting? && r.accept.Idle?
      case AbortExit(_) => r.aborted && !HasExited(r) && r.accept.Idle?
      case ReadRetired(_) => r.task.Exited?
      case Report(_) => r.task.Checked?
      case TaskEnd(_) => r.task.Reported?
  }

  /** The listener after one step of its own task. */
  function RuntimeNext(s: Slot, l: Listener): Runtime
    requires ListenerEnabled(s, l) && !l.ConnEnd?
  {
    var r := s.runtimes[l.h];
    match l
    case AcceptTake(_) => r.(accept := Taken)
    case AcceptGate(_) => r.(accept := if s.gate == r.generation then Passed else Idle)
    case AcceptPin(_) => r.(accept := Pinned(Selected(r)))
    case AcceptPermit(_, _) => r.(accept := Idle)
    case StopAccepting(_) => r.(task := Draining)
    case Drained(_) => r.(task := Exited)
    case Crash(_) => r.(task := Exited)
    case AbortExit(_) => r.(task := Exited)
    case ReadRetired(_) => r.(task := Checked(r.retired))
    case Report(_) => r.(task := Reported)
    case TaskEnd(_) => r.(task := Finished)
  }

  function ListenerNext(s: Slot, l: Listener): (s': Slot)
    ensures s' == s.(runtimes := s'.runtimes, conns := s'.conns, permits := s'.permits, events := s'.events)
    ensures |s'.runtimes| == |s.runtimes|
  {
    if !ListenerEnabled(s, l) then s
    else if l.ConnEnd? then s.(conns := s.conns - {l.conn}, permits := s.permits + 1)
    else
      var r := s.runtimes[l.h];
      var s' := Update(s, l.h, RuntimeNext(s, l));
      if l.AcceptPermit? && s.permits > 0 then
        s'.(permits := s.permits - 1, conns := s.conns[l.conn := Conn(l.h, r.accept.gen)])
      else if l.Report? && (r.task.retired || s.gate == r.generation) then
        s'.(events := s.events + multiset{Event(r.generation, l.h)})
      else s'
  }

  predicate Enabled(accepting: bool, s: Slot, a: Action) {
    && (IsRegistry(a) ==> !RegistryHeld(s))
    && match a
       case ByControl(c) => ControlEnabled(accepting, s, c)
       case ByReload(r) => ReloadEnabled(s, r)
       case ByListener(l) => ListenerEnabled(s, l)
  }

  /** The slot after an action; an action that is not enabled changes nothing. */
  function Next(accepting: bool, s: Slot, a: Action): Slot {
    if !Enabled(accepting, s, a) then s
    else
    match a
    case ByControl(c) => ControlNext(accepting, s, c)
    case ByReload(r) => ReloadNext(accepting, s, r)
    case ByListener(l) => ListenerNext(s, l)
  }
}
