/** What the answers of a reload mean for the clients of the session. */
module ReloadTheorems {
  import opened Basics
  import opened Config
  import opened Slots
  import opened SlotInvariants
  import opened SessionProperties
  import Effective
  import Policy
  import Serving

  /** A reload answers "unchanged" only from the comparison, with the candidate's path and secrets in force. */
  lemma UnchangedCompare(acc: bool, limit: nat, s: Slot, op: OpId)
    requires Inv(acc, limit, s) && ReloadEnabled(s, Compare(op)) && op !in s.answers
    requires var s' := DoCompare(s, op); op in s'.answers && s'.answers[op] == Unchanged
    ensures var c := s.ops[op].reload.candidate;
            && s.entry.Some? && Effective.SameConfiguration(c.config, s.entry.value.config)
            && c.secrets == s.entry.value.secrets && c.path == s.entry.value.socket
  {
    hide Reply; hide Effective.SameConfiguration; hide EntryOk; hide RuntimeOk; hide GateOk; hide ConnOk; hide EventOk;
    assert OpOk(s, op);
  }

  /**
   When a reload answers "unchanged", the generation that the current listener has selected treats every request as
   one compiled from the file would: same CONNECT answers, same interception, same forwarded request.
   */
  lemma UnchangedServesCandidate(
    acc: bool, limit: nat, s: Slot, op: OpId, f: Policy.Foreign,
    authority: string, hosts: seq<string>, serverName: Option<string>, m: Serving.Message)
    requires Inv(acc, limit, s) && ReloadEnabled(s, Compare(op)) && op !in s.answers
    requires op in s.ops && s.ops[op].Reloading? && s.ops[op].reload.Comparing?
    requires var s' := DoCompare(s, op); op in s'.answers && s'.answers[op] == Unchanged
    requires s.entry.Some? && s.entry.value.current.Some?
    requires Effective.NoDuplicates(s.ops[op].reload.candidate.config.rules)
    requires Effective.NoDuplicates(s.entry.value.config.rules)
    ensures var h := s.entry.value.current.value;
            && h < |s.runtimes| && s.runtimes[h].gens != []
            && var g, c := s.runtimes[h].gens[Selected(s.runtimes[h])], s.ops[op].reload.candidate;
               var now, file := Policy.Compile(f, g.config, g.seed), Policy.Compile(f, c.config, s.seed);
               && Policy.AuthorizeConnect(f, now, authority, hosts) == Policy.AuthorizeConnect(f, file, authority, hosts)
               && Policy.PermitsInterception(f, now, authority, serverName)
                  == Policy.PermitsInterception(f, file, authority, serverName)
               && Serving.Serve(f, now, g.secrets, authority, m) == Serving.Serve(f, file, c.secrets, authority, m)
  {
    hide *;
    UnchangedCompare(acc, limit, s, op);
    CurrentServesConfiguration(acc, limit, s);
    Serving.UnchangedIsSound(f, s.ops[op].reload.candidate.config, s.entry.value.config, s.seed, s.entry.value.secrets, authority, hosts, serverName, m);
  }

  /** A reload that keeps its socket and succeeds has installed exactly its candidate, and nothing else moved. */
  lemma SelectInstalls(acc: bool, limit: nat, s: Slot, op: OpId)
    requires Inv(acc, limit, s) && ReloadEnabled(s, Select(op)) && op !in s.answers
    requires var s' := DoSelect(acc, s, op); op in s'.answers && s'.answers[op] == Reloaded
    ensures var c, s' := s.ops[op].reload.candidate, DoSelect(acc, s, op);
            && s.entry.Some? && s'.gate == s.gate
            && s'.entry == Some(s.entry.value.(config := c.config, secrets := c.secrets,
                                generation := Min(s.entry.value.generation + 1, U64_MAX), draining := |s.entry.value.retired|))
            && s'.entry.value.socket == c.path
  {
    hide Inv; hide Reply; hide KeepLive;
    if s.entry.Some? { SelectingPath(acc, limit, s, op); }
  }

  lemma SelectingPath(acc: bool, limit: nat, s: Slot, op: OpId)
    requires Inv(acc, limit, s) && ReloadingAt(s, op) && s.ops[op].reload.Selecting? && s.entry.Some?
    ensures s.ops[op].reload.candidate.path == s.entry.value.socket
  {
    hide EntryOk; hide RuntimeOk; hide GateOk; hide ConnOk; hide EventOk;
    assert OpOk(s, op);
  }
}
