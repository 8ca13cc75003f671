/** The steps of a reload that change what is served. */
module SlotReloads {
  import opened Basics
  import opened Config
  import opened Slots
  import opened SlotInvariants
  import opened SlotProofs
  import opened SlotSteps
  import opened SlotActions
  import opened SlotTurns

  // ----- a new policy generation on the current listener -----

  lemma ForgottenAlike(s: Slot, h: Handle)
    requires h < |s.runtimes|
    ensures Alike(s.seed, s.runtimes[h], Forget(s, h).runtimes[h])
  {
    var r := Forget(s, h).runtimes[h];
    assert forall i :: 0 <= i < |r.tracked| ==> r.tracked[i] in r.tracked;
  }

  lemma ForgottenConns(s: Slot, h: Handle, c: ConnId)
    requires h < |s.runtimes| && ConnOk(s, c)
    ensures ConnOk(Forget(s, h), c)
  {
    if c in s.conns && s.conns[c].runtime == h { assert Live(s, h, s.conns[c].gen); }
  }

  /** Dropping dead policy generations from the bounded vector. */
  lemma ForgetKeeps(acc: bool, limit: nat, s: Slot, h: Handle)
    requires Inv(acc, limit, s) && h < |s.runtimes|
    ensures Inv(acc, limit, Forget(s, h))
  {
    var s' := Forget(s, h);
    assert Framed(s, s') by {
      hide Alike; hide Inv;
      ForgottenAlike(s, h);
      forall r: Runtime ensures Alike(s.seed, r, r) { SelfAlike(s.seed, r); }
    }
    hide Forget; hide Framed; hide OpOk; hide RuntimeOk; hide EntryOk; hide GateOk; hide ConnOk;
    forall c: nat ensures ConnOk(s', c) { ForgottenConns(s, h, c); }
    Framing(acc, limit, s, s');
  }

  ghost predicate CanReselect(s: Slot, h: Handle) {
    && s.entry.Some? && s.entry.value.current == Some(h) && h < |s.runtimes|
    && |s.runtimes[h].tracked| < MAX_POLICY_GENERATIONS
  }

  lemma ReselectRuntime(acc: bool, s: Slot, h: Handle, candidate: Candidate, k: Handle)
    requires CanReselect(s, h) && RuntimeOk(acc, s, k)
    ensures RuntimeOk(acc, Reselect(s, h, candidate), k)
  {
    var s' := Reselect(s, h, candidate);
    if k < |s.runtimes| && k == h {
      var r, r' := s.runtimes[k], s'.runtimes[k];
      assert PoliciesOk(s.seed, r') by {
        hide PlaceOk; hide IsCommitted; hide Stray;
        assert r'.tracked[|r.tracked|] == Selected(r');
      }
      hide PoliciesOk;
    }
  }

  lemma ReselectEntry(s: Slot, h: Handle, candidate: Candidate)
    requires CanReselect(s, h) && EntryOk(s) && candidate.config.persistent == s.persistent
    ensures EntryOk(Reselect(s, h, candidate))
  {
    var s' := Reselect(s, h, candidate);
    forall k | k in s'.entry.value.retired ensures RetiredOk(s', k) { assert RetiredOk(s, k); }
  }

  lemma ReselectRest(s: Slot, h: Handle, candidate: Candidate)
    requires CanReselect(s, h) && GateOk(s)
    ensures GateOk(Reselect(s, h, candidate))
    ensures forall e :: EventOk(s, e) ==> EventOk(Reselect(s, h, candidate), e)
    ensures forall c: nat :: ConnOk(s, c) ==> ConnOk(Reselect(s, h, candidate), c)
  {
    var s' := Reselect(s, h, candidate);
    forall i: nat ensures CommittedOk(s', i) { assert CommittedOk(s, i); }
  }

  lemma ReselectKeeps(acc: bool, limit: nat, s: Slot, h: Handle, op: OpId, candidate: Candidate)
    requires InvBut(acc, limit, s, op) && s.lock == Some(op) && CanReselect(s, h)
    requires candidate.config.persistent == s.persistent
    ensures InvBut(acc, limit, Reselect(s, h, candidate), op)
  {
    var s' := Reselect(s, h, candidate);
    hide RuntimeOk; hide ConnOk; hide EventOk;
    assert s.born by { assert GateOk(s); }
    forall o: nat | o != op ensures OpOk(s', o) {
      if o in s.ops {
        OthersStandBy(acc, limit, s, op, o);
        BystanderKeeps(s, s', o);
      }
    }
    hide OpOk; hide EntryOk; hide GateOk;
    forall k: nat ensures RuntimeOk(acc, s', k) { ReselectRuntime(acc, s, h, candidate, k); }
    ReselectEntry(s, h, candidate);
    ReselectRest(s, h, candidate);
  }

  lemma SelectKeeps(acc: bool, limit: nat, s: Slot, op: OpId)
    requires Inv(acc, limit, s) && ReloadEnabled(s, Select(op))
    ensures Inv(acc, limit, DoSelect(acc, s, op))
  {
    hide InvBut; hide EntryOk; hide GateOk; hide Inv;
    ButAny(acc, limit, s, op);
    var candidate := s.ops[op].reload.candidate;
    assert s.lock == Some(op) && candidate.config.persistent == s.persistent;
    hide OpOk; hide Return; hide Reselect; hide KeepLive;
    if !acc || s.entry.None? || s.entry.value.current.None? {
      IdleReturnKeeps(acc, limit, s, DoSelect(acc, s, op), op);
    } else {
      var h := s.entry.value.current.value;
      var s1 := Forget(s, h);
      ForgetKeeps(acc, limit, s, h);
      if |s1.runtimes[h].tracked| >= MAX_POLICY_GENERATIONS {
        IdleReturnKeeps(acc, limit, s1, DoSelect(acc, s, op), op);
      } else {
        ButAny(acc, limit, s1, op);
        ReselectKeeps(acc, limit, s1, h, op, candidate);
        ReselectSame(s1, h, candidate);
        ReturnKeeps(acc, limit, Reselect(s1, h, candidate), DoSelect(acc, s, op), op);
      }
    }
  }

  lemma ReselectSame(s: Slot, h: Handle, candidate: Candidate)
    requires h < |s.runtimes| && s.entry.Some?
    ensures Reselect(s, h, candidate).ops == s.ops && Reselect(s, h, candidate).reserved == s.reserved
  {
  }
}
