/** The handle of a listener (src/proxy_runtime/rama.rs:208-286): policy generations and retirement flags. */
module ProxyRuntimes {
  import opened Basics
  import opened Config
  import opened Slots
  import opened SessionViews

  /** The generations of `tracked` that somebody still holds, in order. */
  function Alive(tracked: seq<nat>, live: set<nat>): seq<nat> {
    if tracked == [] then []
    else if tracked[0] in live then [tracked[0]] + Alive(tracked[1..], live)
    else Alive(tracked[1..], live)
  }

  lemma {:induction false} AliveIsKeepLive(s: Slot, h: Handle, tracked: seq<nat>, live: set<nat>)
    requires h < |s.runtimes| && forall g :: g in tracked ==> (g in live <==> Live(s, h, g))
    ensures Alive(tracked, live) == KeepLive(s, h, tracked)
  {
    hide Live;
    if tracked != [] { AliveIsKeepLive(s, h, tracked[1..], live); }
  }

  lemma {:induction false} AliveAppend(a: seq<nat>, g: nat, live: set<nat>)
    ensures Alive(a + [g], live) == Alive(a, live) + if g in live then [g] else []
  {
    if a != [] {
      AliveAppend(a[1..], g, live);
      assert (a + [g])[1..] == a[1..] + [g];
    }
  }

  /** `live` holds the generations of listener `h` with a strong count above zero. */
  ghost predicate AreLive(s: Slot, h: Handle, live: set<nat>)
    requires h < |s.runtimes|
  {
    forall g :: g in s.runtimes[h].tracked ==> (g in live <==> Live(s, h, g))
  }

  class ProxyRuntime {
    const number: nat
    const seed: Seed
    var gens: seq<Generation>
    var tracked: seq<nat>
    var retired: bool
    var retirement: bool
    var cancelled: bool
    var aborted: bool

    /** The handle is that of listener `r`. */
    ghost predicate Is(r: Runtime)
      reads this
    {
      && r.generation == number && r.gens == gens && r.tracked == tracked
      && r.retired == retired && r.retirement == retirement && r.cancelled == cancelled && r.aborted == aborted
    }

    constructor (number: nat, seed: Seed, config: SessionConfig, secrets: Secrets)
      ensures this.number == number && this.seed == seed
      ensures forall socket, op :: Is(NewRuntime(number, socket, Generation(config, secrets, seed), op))
    {
      this.number, this.seed := number, seed;
      gens, tracked := [Generation(config, secrets, seed)], [0];
      retired, retirement, cancelled, aborted := false, false, false, false;
    }

    /**
     The handle becomes that of the current listener after the section of a reload that keeps its socket, and the answer
     decides that reload.
     */
    method ReplaceGeneration(config: SessionConfig, secrets: Secrets, live: set<nat>, ghost s: Slot, ghost op: OpId)
      returns (ok: bool)
      requires ReloadEnabled(s, Select(op)) && s.entry.Some? && s.entry.value.current.Some?
      requires var h := s.entry.value.current.value;
               Is(s.runtimes[h]) && s.seed == seed && AreLive(s, h, live)
      requires s.ops[op].reload.candidate.config == config && s.ops[op].reload.candidate.secrets == secrets
      modifies this`gens, this`tracked
      ensures ok <==> |Alive(old(tracked), live)| < MAX_POLICY_GENERATIONS
      ensures var h, s' := s.entry.value.current.value, DoSelect(true, s, op);
              && h < |s'.runtimes| && Is(s'.runtimes[h]) && op in s'.answers && s'.answers[op] == if ok then Reloaded else Failed
    {
      hide DoSelect; hide AreLive; hide Alive; hide ReloadEnabled;
      ghost var r' := SelectedIs(s, op, config, secrets, live);
      var kept := RetainAlive(live);
      if |kept| >= MAX_POLICY_GENERATIONS {
        tracked := kept;
        return false;
      }
      tracked := kept + [|gens|];
      gens := gens + [Generation(config, secrets, seed)];
      return true;
    }

    /** `generations.retain(|generation| generation.strong_count() > 0)`. */
    method RetainAlive(live: set<nat>) returns (kept: seq<nat>)
      ensures kept == Alive(tracked, live)
    {
      var all := tracked;
      kept := [];
      for k := 0 to |all|
        invariant kept == Alive(all[..k], live)
      {
        AliveAppend(all[..k], all[k], live);
        assert all[..k + 1] == all[..k] + [all[k]];
        if all[k] in live { kept := kept + [all[k]]; }
      }
      assert all[..|all|] == all;
    }

    method MarkRetiring(ghost r: Runtime)
      requires Is(r)
      modifies this`retired
      ensures Is(r.(retired := true))
    {
      retired := true;
    }

    method Retire(ghost r: Runtime)
      requires Is(r)
      modifies this`retired, this`retirement
      ensures Is(r.(retired := true, retirement := true))
    {
      MarkRetiring(r);
      retirement := true;
    }

    /** Drop of the handle. */
    method Drop(ghost s: Slot, ghost hs: set<Handle>, ghost h: Handle)
      requires h in hs && h < |s.runtimes| && Is(s.runtimes[h])
      modifies this`cancelled, this`aborted
      ensures Is(Slots.Drop(s, hs).runtimes[h])
    {
      cancelled := true;
      aborted := true;
    }

    /** The two calls of a cutover take the replaced listener's handle through the cutover of the session. */
    method RetireReplaced(ghost s: Slot, ghost op: OpId)
      requires ReloadEnabled(s, CutOver(op)) && CanCut(true, s) && Is(s.runtimes[s.entry.value.current.value])
      modifies this`retired, this`retirement
      ensures Is(CutSlot(s, op).runtimes[s.entry.value.current.value])
    {
      ghost var h := s.entry.value.current.value;
      CutListener(s, op);
      hide CutSlot;
      MarkRetiring(s.runtimes[h]);
      Retire(s.runtimes[h].(retired := true));
    }
  }

  lemma CutListener(s: Slot, op: OpId)
    requires ReloadEnabled(s, CutOver(op)) && CanCut(true, s)
    ensures var h := s.entry.value.current.value;
            CutSlot(s, op).runtimes[h] == s.runtimes[h].(retired := true, retirement := true, place := Retired)
  {
  }

  /**
   What `ReplaceGeneration` leaves is the current listener after the section of a reload that keeps its socket: the
   limit is reached in one exactly when it is in the other, and then only finished generations are forgotten.
   */
  lemma ReplaceIsSelect(s: Slot, op: OpId, live: set<nat>)
    requires op in s.ops && s.ops[op].Reloading? && s.ops[op].reload.Selecting?
    requires s.entry.Some? && s.entry.value.current.Some? && s.entry.value.current.value < |s.runtimes|
    requires AreLive(s, s.entry.value.current.value, live)
    ensures var h, c, s' := s.entry.value.current.value, s.ops[op].reload.candidate, DoSelect(true, s, op);
            var r, kept := s.runtimes[h], Alive(s.runtimes[h].tracked, live);
            var ok := |kept| < MAX_POLICY_GENERATIONS;
            && op in s'.answers && (s'.answers[op] == if ok then Reloaded else Failed)
            && h < |s'.runtimes|
            && s'.runtimes[h] == if ok then r.(tracked := kept + [|r.gens|], gens := r.gens + [Generation(c.config, c.secrets, s.seed)])
                                 else r.(tracked := kept)
  {
    hide KeepLive; hide Live; hide Alive; hide Reply;
    var h := s.entry.value.current.value;
    AliveIsKeepLive(s, h, s.runtimes[h].tracked, live);
    var kept := Forget(s, h);
    ReplyKeepsPolicies(kept, op, Failed, h);
    if |kept.runtimes[h].tracked| < MAX_POLICY_GENERATIONS {
      ReplyKeepsPolicies(Reselect(kept, h, s.ops[op].reload.candidate), op, Reloaded, h);
    }
  }

  /** The current listener after the section. */
  lemma SelectedIs(s: Slot, op: OpId, config: SessionConfig, secrets: Secrets, live: set<nat>) returns (r': Runtime)
    requires ReloadEnabled(s, Select(op)) && s.entry.Some? && s.entry.value.current.Some?
    requires AreLive(s, s.entry.value.current.value, live)
    requires s.ops[op].reload.candidate.config == config && s.ops[op].reload.candidate.secrets == secrets
    ensures var h, s' := s.entry.value.current.value, DoSelect(true, s, op);
            var r, kept := s.runtimes[h], Alive(s.runtimes[h].tracked, live);
            var ok := |kept| < MAX_POLICY_GENERATIONS;
            && h < |s'.runtimes| && s'.runtimes[h] == r' && op in s'.answers && s'.answers[op] == (if ok then Reloaded else Failed)
            && r' == if ok then r.(tracked := kept + [|r.gens|], gens := r.gens + [Generation(config, secrets, s.seed)])
                     else r.(tracked := kept)
  {
    hide DoSelect; hide AreLive; hide Alive;
    ReplaceIsSelect(s, op, live);
    r' := DoSelect(true, s, op).runtimes[s.entry.value.current.value];
  }

  lemma ReplyKeepsPolicies(s: Slot, op: OpId, answer: Answer, h: Handle)
    requires op in s.ops && h < |s.runtimes| && Owned(s.ops[op]) == {}
    ensures var s' := Reply(s, op, answer);
            |s'.runtimes| == |s.runtimes| && s'.runtimes[h] == s.runtimes[h] && s'.answers == s.answers[op := answer]
  {
  }
}
