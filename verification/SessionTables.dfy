/** What the registry's tables show of the sessions, and that one session's section keeps them in step. */
module SessionTables {
  import opened Basics
  import opened Config
  import opened Slots
  import opened SlotEffects
  import opened SessionViews
  import SessionProperties
  import Runs = SessionRuns

  type SlotMap = map<SessionId, Slot>

  // ----- coupling -----

  /** The registry's containers, with what it reads of the listeners. */
  datatype Tables = Tables(
    sessions: map<SessionId, Session>, provisioning: set<SessionId>,
    numbers: map<SessionId, seq<nat>>, finished: map<SessionId, set<Handle>>, gates: map<SessionId, nat>)

  ghost predicate Shows(t: Tables, id: SessionId, v: Seen) {
    && v.entry == (if id in t.sessions then Some(t.sessions[id]) else None) && (v.reserved <==> id in t.provisioning)
    && id in t.numbers && t.numbers[id] == v.numbers && id in t.finished && t.finished[id] == v.finished
    && id in t.gates && t.gates[id] == v.gate
  }

  ghost predicate Coupled(t: Tables, slots: SlotMap) {
    && t.sessions.Keys <= slots.Keys && t.provisioning <= slots.Keys
    && forall id :: id in slots ==> Shows(t, id, SeenOf(slots[id]))
  }

  /** Operations of the state machine that still have to decrement the gauge. */
  ghost function Due(slots: SlotMap): set<(SessionId, OpId)> {
    set id, op | id in slots && op in slots[id].ops && op in CountingOps(slots[id]) :: (id, op)
  }

  /** Capacity is respected, no id is both registered and provisioning, and the gauge is exact. */
  ghost predicate Consistent(max: nat, active: int, t: Tables, slots: SlotMap) {
    && t.sessions.Keys !! t.provisioning && |t.sessions| + |t.provisioning| <= max
    && active == |t.sessions| + |Due(slots)| && Coupled(t, slots)
  }

  function WithEntry(m: map<SessionId, Session>, id: SessionId, entry: Option<Session>): map<SessionId, Session> {
    if entry.Some? then m[id := entry.value] else m - {id}
  }

  /** The tables after session `id` has come to show `v`. */
  function Put(t: Tables, id: SessionId, v: Seen): Tables {
    Tables(WithEntry(t.sessions, id, v.entry),
           if v.reserved then t.provisioning + {id} else t.provisioning - {id},
           t.numbers[id := v.numbers], t.finished[id := v.finished], t.gates[id := v.gate])
  }

  /** Only what has changed needs to be written. */
  lemma PutFrom(t: Tables, id: SessionId, v: Seen, v': Seen)
    requires Shows(t, id, v)
    ensures var p := Put(t, id, v');
            && (v'.entry == v.entry ==> p.sessions == t.sessions) && (v'.reserved == v.reserved ==> p.provisioning == t.provisioning)
            && (v'.numbers == v.numbers ==> p.numbers == t.numbers) && (v'.finished == v.finished ==> p.finished == t.finished)
            && (v'.gate == v.gate ==> p.gates == t.gates)
  {
  }

  lemma CoupledPut(t: Tables, slots: SlotMap, id: SessionId, s: Slot)
    requires Coupled(t, slots)
    ensures Coupled(Put(t, id, SeenOf(s)), slots[id := s])
  {
    hide SeenOf;
    var t', after := Put(t, id, SeenOf(s)), slots[id := s];
    forall k | k in after ensures Shows(t', k, SeenOf(after[k])) {
      if k != id { assert Shows(t, k, SeenOf(slots[k])); }
    }
  }

  lemma CoupledAt(t: Tables, slots: SlotMap, id: SessionId)
    requires Coupled(t, slots) && id in slots
    ensures Shows(t, id, SeenOf(slots[id]))
  {
  }

  lemma PutSizes(t: Tables, id: SessionId, v: Seen)
    ensures var p := Put(t, id, v);
            && |p.sessions| == |t.sessions| - One(id in t.sessions) + One(v.entry.Some?)
            && |p.provisioning| == |t.provisioning| - One(id in t.provisioning) + One(v.reserved)
            && (t.sessions.Keys !! t.provisioning && !(v.entry.Some? && v.reserved) ==> p.sessions.Keys !! p.provisioning)
  {
    var p := Put(t, id, v);
    CountMember(t.sessions.Keys, p.sessions.Keys, id);
    CountMember(t.provisioning, p.provisioning, id);
    assert |t.sessions.Keys| == |t.sessions| && |p.sessions.Keys| == |p.sessions|;
  }

  ghost function DueAt(slots: SlotMap, id: SessionId): set<OpId> { if id in slots then CountingOps(slots[id]) else {} }

  lemma {:induction false} CountPairs(ops: set<OpId>, id: SessionId, pairs: set<(SessionId, OpId)>)
    requires forall p :: p in pairs <==> p.0 == id && p.1 in ops
    ensures |pairs| == |ops|
  {
    if ops == {} {
      assert pairs == {};
    } else {
      var op :| op in ops;
      CountPairs(ops - {op}, id, pairs - {(id, op)});
    }
  }

  /** The decrements due to one session and to the others. */
  lemma DueSplit(slots: SlotMap, id: SessionId)
    ensures var others := set p | p in Due(slots) && p.0 != id;
            |Due(slots)| == |others| + |DueAt(slots, id)|
  {
    var others := set p | p in Due(slots) && p.0 != id;
    var own := Due(slots) - others;
    forall p ensures p in own <==> p.0 == id && p.1 in DueAt(slots, id) {}
    CountPairs(DueAt(slots, id), id, own);
    assert Due(slots) == others + own;
  }

  lemma DuePut(slots: SlotMap, id: SessionId, s: Slot)
    ensures |Due(slots[id := s])| == |Due(slots)| - |DueAt(slots, id)| + |CountingOps(s)|
  {
    var after := slots[id := s];
    DueSplit(slots, id);
    DueSplit(after, id);
    assert (set p | p in Due(after) && p.0 != id) == (set p | p in Due(slots) && p.0 != id);
  }

  lemma NoneDue(slots: SlotMap)
    requires NoneCounting(slots)
    ensures Due(slots) == {}
  {
  }

  lemma DueGauge(max: nat, active: int, t: Tables, slots: SlotMap, id: SessionId, op: OpId)
    requires Consistent(max, active, t, slots) && id in slots && EndingAt(slots[id], op) && slots[id].ops[op].end.Counting?
    ensures active > 0 && op in CountingOps(slots[id])
  {
    hide Coupled;
    assert (id, op) in Due(slots);
  }

  /** Weights of a session: places taken of the capacity, and what the gauge counts. */
  function Places(v: Seen): nat { One(v.entry.Some?) + One(v.reserved) }

  function Weight(v: Seen): nat { One(v.entry.Some?) + |v.counting| }

  /** A section of one session that takes no further place keeps the registry consistent, with the gauge following. */
  lemma PutConsistent(max: nat, active: int, t: Tables, slots: SlotMap, id: SessionId, s: Slot)
    requires Consistent(max, active, t, slots) && id in slots && Places(SeenOf(s)) <= 1
    requires Places(SeenOf(s)) <= Places(SeenOf(slots[id]))
    ensures Consistent(max, active + Weight(SeenOf(s)) - Weight(SeenOf(slots[id])), Put(t, id, SeenOf(s)), slots[id := s])
  {
    CoupledAt(t, slots, id);
    CoupledPut(t, slots, id, s);
    PutSizes(t, id, SeenOf(s));
    DuePut(slots, id, s);
    SeenFields(s);
    SeenFields(slots[id]);
    assert |DueAt(slots, id)| == |SeenOf(slots[id]).counting|;
    hide *;
    Reweighed(max, active, t, slots, id, SeenOf(slots[id]), Put(t, id, SeenOf(s)), slots[id := s], SeenOf(s));
  }

  lemma Reweighed(
    max: nat, active: int, t: Tables, slots: SlotMap, id: SessionId, v: Seen, t': Tables, slots': SlotMap, v': Seen)
    requires Consistent(max, active, t, slots) && Coupled(t', slots') && Shows(t, id, v)
    requires Places(v') <= 1 && Places(v') <= Places(v)
    requires |t'.sessions| == |t.sessions| - One(id in t.sessions) + One(v'.entry.Some?)
    requires |t'.provisioning| == |t.provisioning| - One(id in t.provisioning) + One(v'.reserved)
    requires t.sessions.Keys !! t.provisioning && !(v'.entry.Some? && v'.reserved) ==> t'.sessions.Keys !! t'.provisioning
    requires |Due(slots')| == |Due(slots)| - |v.counting| + |v'.counting|
    ensures Consistent(max, active + Weight(v') - Weight(v), t', slots')
  {
    hide Coupled; hide Due;
  }

  lemma SeenFields(s: Slot)
    ensures SeenOf(s).counting == CountingOps(s) && SeenOf(s).entry == s.entry && SeenOf(s).reserved == s.reserved
    ensures SeenOf(s).numbers == Numbers(s) && SeenOf(s).finished == FinishedListeners(s) && SeenOf(s).gate == s.gate
  {
    hide Numbers; hide FinishedListeners; hide CountingOps;
  }

  lemma NewSeen(limit: nat, op: OpId, config: SessionConfig, secrets: Secrets, source: Option<string>, seed: Seed)
    ensures var s := Runs.NewSlot(limit, op, config, secrets, source, seed);
            SeenOf(s) == Seen(None, true, 1, [], {}, {}) && CountingOps(s) == {}
  {
  }

  lemma NewConsistent(max: nat, active: int, t: Tables, slots: SlotMap, id: SessionId, s: Slot)
    requires Consistent(max, active, t, slots) && |t.sessions| + |t.provisioning| < max && id !in slots
    requires SeenOf(s) == Seen(None, true, 1, [], {}, {}) && CountingOps(s) == {}
    ensures Consistent(max, active, Put(t, id, SeenOf(s)), slots[id := s])
    ensures Put(t, id, SeenOf(s)) == Tables(t.sessions, t.provisioning + {id}, t.numbers[id := []], t.finished[id := {}], t.gates[id := 1])
  {
    assert id !in t.sessions && id !in t.provisioning;
    CoupledPut(t, slots, id, s);
    PutSizes(t, id, SeenOf(s));
    DuePut(slots, id, s);
    PutNew(t, id);
    hide Coupled; hide SeenOf; hide Due; hide Put; hide CountingOps; hide Shows;
  }

  lemma PutNew(t: Tables, id: SessionId)
    requires id !in t.sessions
    ensures Put(t, id, Seen(None, true, 1, [], {}, {}))
            == Tables(t.sessions, t.provisioning + {id}, t.numbers[id := []], t.finished[id := {}], t.gates[id := 1])
  {
  }

  // ----- whole maps -----

  function PrunedSessions(m: map<SessionId, Session>, finished: map<SessionId, set<Handle>>, done: set<SessionId>)
    : map<SessionId, Session>
  {
    map id | id in m :: if id in done && id in finished then WithRetired(m[id], m[id].retired - finished[id]) else m[id]
  }

  function EndedSessions(m: map<SessionId, Session>, done: set<SessionId>): map<SessionId, Session> {
    map id | id in m :: if id in done then Ended(m[id]) else m[id]
  }

  function TakenFrom(m: map<SessionId, Session>, done: set<SessionId>): map<SessionId, set<Handle>> {
    map id | id in m && id in done :: AllListeners(m[id])
  }

  function PrunedSlot(s: Slot): Slot { if s.entry.Some? then Counted(Pruned(s)) else s }

  function PrunedSlots(slots: SlotMap, done: set<SessionId>): SlotMap {
    map id | id in slots :: if id in done then PrunedSlot(slots[id]) else slots[id]
  }

  function VisitedSlots(slots: SlotMap, done: set<SessionId>): SlotMap {
    map id | id in slots :: if id in done then Visited(slots[id]) else slots[id]
  }

  function ForgottenSlots(slots: SlotMap): SlotMap { map id | id in slots :: Forgotten(slots[id]) }

  function JoinedSlots(slots: SlotMap): SlotMap { map id | id in slots :: Joined(slots[id]) }

  function ClearedSlots(slots: SlotMap): SlotMap { map id | id in slots :: Runs.Cleared(slots[id]) }

  /** What shutdown_all does to sessions at rest. */
  function ShutSlots(slots: SlotMap): SlotMap {
    map id | id in slots :: Runs.Cleared(Joined(Visited(Forgotten(slots[id]))))
  }

  ghost predicate AtRest(slots: SlotMap) { forall id :: id in slots ==> IsIdle(slots[id]) }

  ghost predicate NoneCounting(slots: SlotMap) { forall id :: id in slots ==> CountingOps(slots[id]) == {} }

  ghost predicate AllSwept(slots: SlotMap) { forall id :: id in slots ==> Runs.IsSwept(slots[id], SWEEPER) }

  // ----- lemmas about single sections -----

  lemma SelectAnswer(acc: bool, s: Slot, op: OpId)
    requires ReloadEnabled(s, Select(op))
    ensures var s' := DoSelect(acc, s, op);
            && op in s'.answers
            && (s'.answers[op] == Reloaded <==>
                && acc && s.entry.Some? && s.entry.value.current.Some?
                && var h := s.entry.value.current.value; |Forget(s, h).runtimes[h].tracked| < MAX_POLICY_GENERATIONS)
  {
    hide Return; hide Forget; hide Reselect;
  }

  lemma CutInTwo(x: Session, candidate: Candidate, next: nat, replacement: Handle, prior: Handle)
    ensures var y := CutOverEntry(x, candidate, next, replacement);
            WithRetired(y, y.retired + {prior}) == CutEntry(x, candidate, next, replacement, prior)
  {
  }

  /** A plan that goes on keeps its candidate. */
  lemma PlanCarries(s: Slot, op: OpId)
    requires ReloadEnabled(s, Plan(op)) && s.entry.Some?
    ensures var t := DoPlan(true, s, op);
            ReloadingAt(t, op) && t.ops[op].reload.Starting? ==>
              && t.ops[op].reload.candidate == s.ops[op].reload.candidate && t.entry == Pruned(s).entry
              && |t.runtimes| == |s.runtimes| && t.seed == s.seed
  {
    SessionProperties.PrunedUntouched(s);
    hide Drop;
  }

  lemma PlanCarriesOn(acc: bool, s: Slot, op: OpId)
    requires ReloadEnabled(s, Plan(op)) && s.entry.Some? && acc
    ensures var t := DoPlan(acc, s, op);
            ReloadingAt(t, op) && t.ops[op].reload.Starting? ==> t.ops[op].reload.candidate == s.ops[op].reload.candidate
  {
    hide DoPlan;
    PlanCarries(s, op);
  }

  lemma KeptAre(x: Session, numbers: seq<nat>, g: nat)
    ensures (set h | h in x.retired && !(h < |numbers| && numbers[h] == g)) == x.retired - Carrying(x, numbers, g)
  {
  }

  lemma PlanAnswer(acc: bool, s: Slot, op: OpId)
    requires ReloadEnabled(s, Plan(op))
    ensures var s' := DoPlan(acc, s, op);
            if !acc || s.entry.None? then op in s'.answers && s'.answers[op] == Failed
            else
              var x := s.entry.value.(retired := s.entry.value.retired - FinishedListeners(s));
              if x.current.None? || x.listenerGeneration >= U64_MAX || |x.retired| >= MAX_RETIRED_LISTENERS
              then op in s'.answers && s'.answers[op] == Failed
              else ReloadingAt(s', op) && s'.ops[op].reload.Starting? && s'.ops[op].reload.next == x.listenerGeneration + 1
  {
    if s.entry.Some? { PrunedPlain(s); }
    hide SeenOf; hide FinishedListeners; hide Drop; hide Return;
  }

  lemma PrunedPlain(s: Slot)
    requires s.entry.Some?
    ensures Pruned(s).entry.Some? && SeenOf(Pruned(s)).entry == Pruned(s).entry
    ensures Pruned(s).entry.value == s.entry.value.(retired := s.entry.value.retired - FinishedListeners(s))
    ensures SeenOf(Pruned(s)) == SeenOf(s).(entry := Pruned(s).entry)
  {
    var x := s.entry.value;
    assert x.retired - FinishedRetired(s) == x.retired - FinishedListeners(s);
    DropAlike(s, FinishedRetired(s));
    var d := Drop(s, FinishedRetired(s));
    SameAlike(d, Pruned(s));
    AlikeFrom(s, d, Pruned(s));
    CountingSame(s, Pruned(s));
    AlikeSeen(s, Pruned(s));
    hide Alike; hide Drop; hide Numbers; hide CountingOps; hide FinishedListeners;
  }

  lemma PrunedNone(m: map<SessionId, Session>, finished: map<SessionId, set<Handle>>, slots: SlotMap)
    ensures PrunedSessions(m, finished, {}) == m && PrunedSlots(slots, {}) == slots
  {
  }

  lemma PrunedMore(
    m: map<SessionId, Session>, finished: map<SessionId, set<Handle>>, slots: SlotMap, done: set<SessionId>, id: SessionId)
    requires id in m && id !in done
    ensures var s := PrunedSessions(m, finished, done);
            && s.Keys == m.Keys && s[id] == m[id]
            && (id in finished ==>
                  s[id := WithRetired(m[id], m[id].retired - finished[id])] == PrunedSessions(m, finished, done + {id}))
    ensures id in slots ==> var p := PrunedSlots(slots, done);
                            id in p && p[id] == slots[id] && p[id := PrunedSlot(slots[id])] == PrunedSlots(slots, done + {id})
    ensures id in PrunedSlots(slots, done) ==> id in slots
  {
    hide WithRetired; hide PrunedSlot;
  }

  lemma EndedNone(m: map<SessionId, Session>, slots: SlotMap)
    ensures EndedSessions(m, {}) == m && TakenFrom(m, {}) == map[] && VisitedSlots(slots, {}) == slots
  {
  }

  lemma EndedSize(m: map<SessionId, Session>, done: set<SessionId>)
    ensures |EndedSessions(m, done)| == |m| && m.Keys * m.Keys == m.Keys && |m.Keys| == |m|
  {
    var s := EndedSessions(m, done);
    assert s.Keys == m.Keys;
    assert |s.Keys| == |s|;
  }

  lemma EndedMore(m: map<SessionId, Session>, slots: SlotMap, done: set<SessionId>, id: SessionId)
    requires id !in done && id in slots
    ensures var s, more := EndedSessions(m, done), done + {id};
            if id in m then id in s && s[id] == m[id] && s[id := Ended(m[id])] == EndedSessions(m, more)
            else id !in s && s == EndedSessions(m, more)
    ensures var p := VisitedSlots(slots, done);
            id in p && p[id] == slots[id] && p[id := Visited(slots[id])] == VisitedSlots(slots, done + {id})
  {
    hide Ended; hide Visited;
  }

  lemma TakenMore(m: map<SessionId, Session>, done: set<SessionId>, id: SessionId)
    requires id !in done
    ensures var t, more := TakenFrom(m, done), done + {id};
            if id in m then t[id := AllListeners(m[id])] == TakenFrom(m, more) && |more * m.Keys| == |done * m.Keys| + 1
            else t == TakenFrom(m, more) && more * m.Keys == done * m.Keys
  {
    hide AllListeners;
    if id in m { assert (done + {id}) * m.Keys == done * m.Keys + {id}; }
  }

  lemma DecidedSweep(x: Session, numbers: seq<nat>)
    ensures Decided(x, Sweep, numbers) == Ended(x) && TakenBy(x, Sweep) == Some(AllListeners(x))
  {
  }

  lemma RestAt(slots: SlotMap, id: SessionId)
    requires AtRest(slots) && id in slots
    ensures IsIdle(slots[id])
  {
  }

  lemma ShutOne(s: Slot)
    requires IsIdle(s)
    ensures var f := Forgotten(s);
            && IsIdle(f) && CountingOps(Visited(f)) == {} && Runs.IsSwept(Joined(Visited(f)), SWEEPER)
            && (s.entry.None? ==> Visited(f) == f)
  {
    VisitedOps(Forgotten(s));
    hide Visited; hide Drop; hide AllListeners;
  }

  /** The slots through the stages of shutdown_all. */
  lemma ShutMaps(t: Tables, slots: SlotMap)
    requires Coupled(t, slots) && AtRest(slots)
    ensures var f := ForgottenSlots(slots);
            var v := VisitedSlots(f, t.sessions.Keys);
            && f.Keys == slots.Keys && AtRest(f) && NoneCounting(v) && AllSwept(JoinedSlots(v))
            && ClearedSlots(JoinedSlots(v)) == ShutSlots(slots)
  {
    hide IsIdle; hide CountingOps; hide Visited; hide Joined; hide Runs.IsSwept; hide Forgotten; hide Runs.Cleared; hide SeenOf;
    var f := ForgottenSlots(slots);
    var v := VisitedSlots(f, t.sessions.Keys);
    var j := JoinedSlots(v);
    forall id | id in slots
      ensures IsIdle(f[id]) && CountingOps(v[id]) == {} && Runs.IsSwept(j[id], SWEEPER) && v[id] == Visited(f[id])
    {
      ShutOne(slots[id]);
      ShownEntry(t, slots, id);
    }
  }

  lemma ShownEntry(t: Tables, slots: SlotMap, id: SessionId)
    requires Coupled(t, slots) && id in slots
    ensures id in t.sessions <==> slots[id].entry.Some?
  {
    hide SeenOf;
    CoupledAt(t, slots, id);
    SeenFields(slots[id]);
  }

  /** New tables and slots that show each other and owe the same. */
  lemma Recoupled(max: nat, active: int, active': int, t: Tables, t': Tables, slots: SlotMap, slots': SlotMap)
    requires Consistent(max, active, t, slots) && slots'.Keys == slots.Keys
    requires forall id :: id in slots ==> Shows(t', id, SeenOf(slots'[id]))
    requires t'.sessions.Keys <= t.sessions.Keys && t'.provisioning <= t.provisioning
    requires |t'.sessions| <= |t.sessions| && |t'.provisioning| <= |t.provisioning|
    requires active' == |t'.sessions| + |Due(slots')|
    ensures Consistent(max, active', t', slots')
  {
    hide SeenOf; hide Shows; hide Due;
  }

  lemma AllCounted(max: nat, active: int, t: Tables, slots: SlotMap)
    requires Consistent(max, active, t, slots)
    ensures active == |t.sessions| + |Due(slots)| && forall id :: id in slots ==> Shows(t, id, SeenOf(slots[id]))
  {
    hide SeenOf; hide Shows; hide Due;
  }

  lemma SameDue(slots: SlotMap, slots': SlotMap)
    requires slots'.Keys == slots.Keys && forall id :: id in slots ==> CountingOps(slots'[id]) == CountingOps(slots[id])
    ensures Due(slots') == Due(slots)
  {
    forall p ensures p in Due(slots') <==> p in Due(slots) {
      if p.0 in slots { assert p.1 in CountingOps(slots'[p.0]) <==> p.1 in CountingOps(slots[p.0]); }
    }
  }

  lemma ForgottenShows(t: Tables, id: SessionId, s: Slot)
    requires Shows(t, id, SeenOf(s))
    ensures Shows(t.(provisioning := {}), id, SeenOf(Forgotten(s))) && CountingOps(Forgotten(s)) == CountingOps(s)
  {
    hide SeenOf;
    ForgottenSeen(s);
    CountingSame(s, Forgotten(s));
  }

  lemma ForgottenConsistent(max: nat, active: int, t: Tables, slots: SlotMap)
    requires Consistent(max, active, t, slots)
    ensures Consistent(max, active, t.(provisioning := {}), ForgottenSlots(slots))
  {
    hide SeenOf; hide Shows; hide CountingOps; hide Consistent; hide Due;
    AllCounted(max, active, t, slots);
    forall id | id in slots
      ensures Shows(t.(provisioning := {}), id, SeenOf(Forgotten(slots[id]))) && CountingOps(Forgotten(slots[id])) == CountingOps(slots[id])
    {
      ForgottenShows(t, id, slots[id]);
    }
    hide Forgotten;
    SameDue(slots, ForgottenSlots(slots));
    Recoupled(max, active, active, t, t.(provisioning := {}), slots, ForgottenSlots(slots));
  }

  lemma JoinedShows(t: Tables, id: SessionId, s: Slot)
    requires Shows(t, id, SeenOf(s)) && CountingOps(s) == {}
    ensures Shows(t, id, SeenOf(Joined(s))) && CountingOps(Joined(s)) == {}
  {
    hide SeenOf; hide CountingOps; hide Joined;
    JoinedSeen(s);
    SeenFields(s);
    SeenFields(Joined(s));
  }

  lemma JoinedConsistent(max: nat, active: int, t: Tables, slots: SlotMap)
    requires Consistent(max, active, t, slots) && NoneCounting(slots)
    ensures Consistent(max, active, t, JoinedSlots(slots))
  {
    hide SeenOf; hide Shows; hide CountingOps; hide Consistent; hide Joined; hide Due;
    AllCounted(max, active, t, slots);
    forall id | id in slots ensures Shows(t, id, SeenOf(Joined(slots[id]))) && CountingOps(Joined(slots[id])) == {} {
      JoinedShows(t, id, slots[id]);
    }
    SameDue(slots, JoinedSlots(slots));
    Recoupled(max, active, active, t, t, slots, JoinedSlots(slots));
  }

  lemma ClearedShows(t: Tables, id: SessionId, s: Slot)
    requires Shows(t, id, SeenOf(s)) && Runs.IsSwept(s, SWEEPER)
    ensures Shows(t.(sessions := map[]), id, SeenOf(Runs.Cleared(s)))
    ensures CountingOps(s) == {} && CountingOps(Runs.Cleared(s)) == {}
  {
    hide SeenOf; hide CountingOps; hide Runs.Cleared; hide Runs.IsSwept;
    ClearedSeen(s);
    SeenFields(s);
    SeenFields(Runs.Cleared(s));
  }

  lemma ClearedConsistent(max: nat, active: int, t: Tables, slots: SlotMap)
    requires Consistent(max, active, t, slots) && AllSwept(slots)
    ensures active == |t.sessions| && Consistent(max, 0, t.(sessions := map[]), ClearedSlots(slots))
  {
    hide SeenOf; hide Shows; hide CountingOps; hide Consistent; hide Runs.Cleared; hide Runs.IsSwept; hide Due;
    AllCounted(max, active, t, slots);
    forall id | id in slots
      ensures Shows(t.(sessions := map[]), id, SeenOf(Runs.Cleared(slots[id])))
      ensures CountingOps(slots[id]) == {} && CountingOps(Runs.Cleared(slots[id])) == {}
    {
      ClearedShows(t, id, slots[id]);
    }
    NoneDue(slots);
    NoneDue(ClearedSlots(slots));
    Recoupled(max, active, 0, t, t.(sessions := map[]), slots, ClearedSlots(slots));
  }
}
