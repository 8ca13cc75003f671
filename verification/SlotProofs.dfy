module SlotProofs {
  import opened Basics
  import opened Config
  import opened Slots
  import opened SlotInvariants

  // ----- frames -----

  /** Same owner, number, flags and policies; an exited task stays exited. */
  ghost predicate Alike(seed: Seed, r: Runtime, r': Runtime) {
    && r'.generation == r.generation && r'.socket == r.socket && r'.gens == r.gens
    && r'.retired == r.retired && r'.place == r.place
    && (r.cancelled ==> r'.cancelled) && (r.aborted ==> r'.aborted)
    && (HasExited(r) ==> HasExited(r'))
    && (r'.task == Checked(true) ==> r.retired || r.task == Checked(true))
    && (PoliciesOk(seed, r) ==> PoliciesOk(seed, r'))
  }

  /** The two slots differ only in task progress, connections and events. */
  ghost predicate Framed(s: Slot, s': Slot) {
    && s' == s.(runtimes := s'.runtimes, conns := s'.conns, permits := s'.permits, events := s'.events)
    && |s'.runtimes| == |s.runtimes|
    && forall h :: 0 <= h < |s.runtimes| ==> Alike(s.seed, s.runtimes[h], s'.runtimes[h])
  }

  lemma RuntimeFrame(acc: bool, s: Slot, s': Slot, h: Handle)
    requires Framed(s, s') && RuntimeOk(acc, s, h)
    ensures RuntimeOk(acc, s', h)
  {
  }

  lemma EntryFrame(s: Slot, s': Slot)
    requires Framed(s, s') && EntryOk(s)
    ensures EntryOk(s')
  {
    if s.entry.Some? {
      forall h | h in s.entry.value.retired ensures RetiredOk(s', h) {
        assert RetiredOk(s, h);
      }
    }
  }

  lemma EventFrame(s: Slot, s': Slot, e: Event)
    requires Framed(s, s') && EventOk(s, e)
    ensures EventOk(s', e)
  {
  }

  lemma ReloadFrame(s: Slot, s': Slot, op: OpId, pc: ReloadPc)
    requires Framed(s, s') && ReloadOk(s, op, pc)
    ensures ReloadOk(s', op, pc)
  {
  }

  lemma OpFrame(s: Slot, s': Slot, op: OpId)
    requires Framed(s, s') && OpOk(s, op)
    ensures OpOk(s', op)
  {
    hide ReloadOk;
    if op in s.ops {
      match s.ops[op] {
        case Locating(ToEnd(Exit(e))) => EventFrame(s, s', e);
        case AwaitingLock(ToEnd(Exit(e))) => EventFrame(s, s', e);
        case Ending(Exit(e), _) => EventFrame(s, s', e);
        case Reloading(pc) => ReloadFrame(s, s', op, pc);
        case _ =>
      }
    }
  }

  lemma GateFrame(s: Slot, s': Slot)
    requires Framed(s, s') && GateOk(s)
    ensures GateOk(s')
  {
    forall i: nat ensures CommittedOk(s', i) {
      assert CommittedOk(s, i);
    }
  }

  lemma Framing(acc: bool, limit: nat, s: Slot, s': Slot)
    requires Inv(acc, limit, s) && Framed(s, s')
    requires forall e :: e in s'.events ==> e in s.events || EventOk(s', e)
    requires forall c: nat :: ConnOk(s', c)
    requires s'.permits + |s'.conns| == limit
    ensures Inv(acc, limit, s')
  {
    forall h: nat ensures RuntimeOk(acc, s', h) { RuntimeFrame(acc, s, s', h); }
    forall op: nat ensures OpOk(s', op) { OpFrame(s, s', op); }
    forall e | e in s'.events ensures EventOk(s', e) { if e in s.events { EventFrame(s, s', e); } }
    EntryFrame(s, s');
    GateFrame(s, s');
  }

  lemma ListenerAlike(s: Slot, l: Listener)
    requires ListenerEnabled(s, l) && !l.ConnEnd?
    ensures Alike(s.seed, s.runtimes[l.h], RuntimeNext(s, l))
  {
  }

  lemma ListenerFramed(s: Slot, l: Listener)
    requires ListenerEnabled(s, l)
    ensures Framed(s, ListenerNext(s, l))
  {
    hide RuntimeNext;
    hide Alike;
    if !l.ConnEnd? {
      ListenerAlike(s, l);
      forall r: Runtime ensures Alike(s.seed, r, r) { SelfAlike(s.seed, r); }
    } else {
      forall r: Runtime ensures Alike(s.seed, r, r) { SelfAlike(s.seed, r); }
    }
  }

  lemma SelfAlike(seed: Seed, r: Runtime)
    ensures Alike(seed, r, r)
  {
  }

  lemma ListenerQuiet(s: Slot, l: Listener)
    requires ListenerEnabled(s, l) && !l.ConnEnd?
    ensures !l.AcceptPermit? ==> ListenerNext(s, l).conns == s.conns && ListenerNext(s, l).permits == s.permits
    ensures !l.Report? ==> ListenerNext(s, l).events == s.events
  {
    hide RuntimeNext;
  }

  lemma ListenerTracked(s: Slot, l: Listener, h: Handle)
    requires ListenerEnabled(s, l) && h < |s.runtimes|
    ensures h < |ListenerNext(s, l).runtimes| && ListenerNext(s, l).runtimes[h].tracked == s.runtimes[h].tracked
  {
    if !l.ConnEnd? { NextTracked(s, l); }
    hide RuntimeNext; hide ListenerEnabled;
  }

  lemma NextTracked(s: Slot, l: Listener)
    requires ListenerEnabled(s, l) && !l.ConnEnd?
    ensures l.h < |s.runtimes| && RuntimeNext(s, l).tracked == s.runtimes[l.h].tracked
  {
  }

  lemma ListenerEvents(acc: bool, s: Slot, l: Listener, e: Event)
    requires ListenerEnabled(s, l) && GateOk(s) && l.Report? && RuntimeOk(acc, s, l.h)
    requires e in ListenerNext(s, l).events && e !in s.events
    ensures EventOk(ListenerNext(s, l), e)
  {
    hide PoliciesOk;
    hide PlaceOk;
    assert e == Event(s.runtimes[l.h].generation, l.h);
    assert IsCommitted(s, l.h);
  }

  lemma ListenerConns(acc: bool, limit: nat, s: Slot, l: Listener)
    requires ListenerEnabled(s, l) && (l.ConnEnd? || (l.AcceptPermit? && RuntimeOk(acc, s, l.h)))
    requires s.permits + |s.conns| == limit && forall c: nat :: ConnOk(s, c)
    ensures forall c: nat :: ConnOk(ListenerNext(s, l), c)
    ensures ListenerNext(s, l).permits + |ListenerNext(s, l).conns| == limit
  {
    var s' := ListenerNext(s, l);
    ListenerPermits(s, l);
    hide RuntimeOk;
    if l.AcceptPermit? { PinnedTracked(acc, s, l); }
    ListenerConnsAre(s, l);
    hide ListenerNext; hide ListenerEnabled;
    forall c: nat ensures ConnOk(s', c) {
      assert ConnOk(s, c);
      if c in s'.conns { ListenerTracked(s, l, s'.conns[c].runtime); }
    }
  }

  lemma ListenerConnsAre(s: Slot, l: Listener)
    requires ListenerEnabled(s, l) && (l.ConnEnd? || l.AcceptPermit?)
    ensures forall c :: c in ListenerNext(s, l).conns ==>
              || (c in s.conns && ListenerNext(s, l).conns[c] == s.conns[c])
              || (l.AcceptPermit? && ListenerNext(s, l).conns[c] == Conn(l.h, s.runtimes[l.h].accept.gen))
  {
    hide RuntimeNext;
  }

  lemma PinnedTracked(acc: bool, s: Slot, l: Listener)
    requires ListenerEnabled(s, l) && l.AcceptPermit? && RuntimeOk(acc, s, l.h)
    ensures l.h < |s.runtimes| && s.runtimes[l.h].accept.Pinned? && s.runtimes[l.h].accept.gen in s.runtimes[l.h].tracked
  {
    hide PlaceOk; hide Stray; hide IsCommitted;
  }

  lemma ListenerPermits(s: Slot, l: Listener)
    requires ListenerEnabled(s, l) && (l.ConnEnd? || l.AcceptPermit?)
    ensures ListenerNext(s, l).permits + |ListenerNext(s, l).conns| == s.permits + |s.conns|
  {
    hide RuntimeNext;
    if l.ConnEnd? { MapShrinks(s.conns, l.conn); }
    else if s.permits > 0 { MapGrows(s.conns, l.conn, Conn(l.h, s.runtimes[l.h].accept.gen)); }
  }

  lemma MapGrows<K, V>(m: map<K, V>, k: K, v: V)
    requires k !in m
    ensures |m[k := v]| == |m| + 1
  {
    assert m[k := v].Keys == m.Keys + {k};
    assert |m.Keys| == |m| && |m[k := v].Keys| == |m[k := v]|;
  }

  lemma MapShrinks<K, V>(m: map<K, V>, k: K)
    requires k in m
    ensures |m - {k}| == |m| - 1
  {
    assert (m - {k}).Keys == m.Keys - {k};
    assert |m.Keys| == |m| && |(m - {k}).Keys| == |m - {k}|;
  }

  lemma ListenerKeeps(acc: bool, limit: nat, s: Slot, l: Listener)
    requires Inv(acc, limit, s) && ListenerEnabled(s, l)
    ensures Inv(acc, limit, ListenerNext(s, l))
  {
    var s' := ListenerNext(s, l);
    ListenerFramed(s, l);
    if !l.ConnEnd? {
      ListenerQuiet(s, l);
      assert RuntimeOk(acc, s, l.h);
    }
    hide ListenerNext;
    hide RuntimeNext;
    forall e | e in s'.events && e !in s.events ensures EventOk(s', e) { ListenerEvents(acc, s, l, e); }
    if l.ConnEnd? || l.AcceptPermit? { ListenerConns(acc, limit, s, l); }
    else {
      forall c: nat ensures ConnOk(s', c) {
        assert ConnOk(s, c);
        if c in s.conns { ListenerTracked(s, l, s.conns[c].runtime); }
      }
    }
    hide *;
    Framing(acc, limit, s, s');
  }
}
