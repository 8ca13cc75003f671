/** Session documents and their wire form (crates/baffle-client/src/policy.rs:130-243, lib.rs:688-777). */
module Wire {
  import opened Basics
  import opened Config
  import opened Text
  import opened Dns
  import opened Paths
  import opened Sorting
  import opened Effective
  import opened Validation

  const SESSION_CONFIG_VERSION: int := 2

  datatype NamedRule = NamedRule(
    mode: Option<RuleMode>, ports: Option<seq<nat>>, paths: Option<seq<string>>, inject: Option<seq<HeaderInjection>>)

  /** A `BTreeMap` from host to rule: its entries in key order. */
  type Table = seq<(string, NamedRule)>

  datatype Rules = Named(table: Table) | Other

  datatype RawCredentials = RawCredentials(defaultMode: Option<CredentialMode>, overrides: map<string, CredentialMode>)

  datatype Document = Document(
    version: Option<int>, persistent: bool, socketName: Option<string>, unmatched: Option<string>,
    rules: Option<Rules>, credentials: Option<RawCredentials>, unsupported: set<string>)

  datatype DocumentError =
    | BadVersion | MissingVersion | InvalidFile | BadUnmatched | BadHost(index: nat) | DuplicateHost(index: nat)
    | InRule(index: nat, rule: RuleError) | BadSocketName | BadCredentials

  predicate IsSocketName(s: string) {
    && s != [] && s[0] != '/' && !ContainsAny(s, "\\\0") && |s| <= 107
    && forall k :: 0 <= k < |Split(s, '/')| ==> Split(s, '/')[k] !in ["", ".", ".."]
  }

  predicate HasFeatures(n: NamedRule) { n.paths.Some? || n.inject.Some? }

  function Or<T>(o: Option<T>, default: T): T { if o.Some? then o.value else default }

  /** A named rule before validation: inferred mode, default port, empty lists. */
  function Inferred(host: string, n: NamedRule): HostRule {
    HostRule(host, Or(n.mode, if HasFeatures(n) then Intercept else Tunnel), Or(n.ports, [443]),
             Or(n.paths, []), Or(n.inject, []))
  }

  predicate HostTaken(rules: seq<HostRule>, host: string) { exists i :: 0 <= i < |rules| && rules[i].host == host }

  /** The rules of the entries from `k` on, after the rules `done` of the entries before. */
  function NamedRules(accept: Acceptance, table: Table, k: nat, done: seq<HostRule>)
    : Result<seq<HostRule>, DocumentError>
    requires k <= |table|
    decreases |table| - k
  {
    if k == |table| then Ok(done)
    else
      var host := NormalizeDns(accept, table[k].0);
      if host.None? then Err(BadHost(k))
      else if HostTaken(done, host.value) then Err(DuplicateHost(k))
      else
        var rule := ValidatedRule(Inferred(host.value, table[k].1), HasFeatures(table[k].1));
        if rule.Err? then Err(InRule(k, rule.error)) else NamedRules(accept, table, k + 1, done + [rule.value])
  }

  function Validated(accept: Acceptance, d: Document): Result<SessionConfig, DocumentError> {
    if d.version.None? then Err(MissingVersion)
    else if d.version.value != SESSION_CONFIG_VERSION then Err(BadVersion)
    else if d.unsupported != {} then Err(InvalidFile)
    else if Or(d.unmatched, "deny") !in ["deny", "tunnel"] then Err(BadUnmatched)
    else if d.rules.Some? && d.rules.value.Other? then Err(InvalidFile)
    else
      var rules := NamedRules(accept, if d.rules.Some? then d.rules.value.table else [], 0, []);
      if rules.Err? then Err(rules.error)
      else if d.socketName.Some? && !IsSocketName(d.socketName.value) then Err(BadSocketName)
      else
        var c := Or(d.credentials, RawCredentials(None, map[]));
        if exists name :: name in c.overrides && !IsSecretId(name) then Err(BadCredentials)
        else
          Ok(SessionConfig(d.persistent, d.socketName,
                           if Or(d.unmatched, "deny") == "deny" then DenyUnmatched else TunnelUnmatched,
                           c.defaultMode, c.overrides, rules.value))
  }

  method ValidateNamedRules(accept: Acceptance, table: Table) returns (r: Result<seq<HostRule>, DocumentError>)
    ensures r == NamedRules(accept, table, 0, [])
  {
    hide NormalizeDns; hide ValidatedRule;
    var hosts: set<string> := {};
    var rules: seq<HostRule> := [];
    for k := 0 to |table|
      invariant forall h :: h in hosts <==> HostTaken(rules, h)
      invariant NamedRules(accept, table, 0, []) == NamedRules(accept, table, k, rules)
    {
      var host := NormalizeDns(accept, table[k].0);
      if host.None? { return Err(BadHost(k)); }
      if host.value in hosts { return Err(DuplicateHost(k)); }
      var n := table[k].1;
      var rule := ValidateRule(Inferred(host.value, n), HasFeatures(n));
      if rule.Err? { return Err(InRule(k, rule.error)); }
      RuleKeepsHost(Inferred(host.value, n), HasFeatures(n));
      TakenAfter(rules, rule.value);
      hosts := hosts + {host.value};
      rules := rules + [rule.value];
    }
    return Ok(rules);
  }

  lemma TakenAfter(rules: seq<HostRule>, r: HostRule)
    ensures forall h :: HostTaken(rules + [r], h) <==> HostTaken(rules, h) || h == r.host
  {
    var all := rules + [r];
    assert all[|rules|] == r;
    forall h | HostTaken(rules, h) ensures HostTaken(all, h) {
      var i :| 0 <= i < |rules| && rules[i].host == h;
      assert all[i].host == h;
    }
  }

  lemma RuleKeepsHost(rule: HostRule, features: bool)
    ensures ValidatedRule(rule, features).Ok? ==> ValidatedRule(rule, features).value.host == rule.host
  {
    hide ValidPaths; hide PortsError; hide InjectionsError;
  }

  // ----- what a valid configuration is -----

  ghost predicate HostOk(accept: Acceptance, host: string) { NormalizeDns(accept, host) == Some(host) }

  ghost predicate RulesOk(accept: Acceptance, rules: seq<HostRule>) {
    && DistinctBy(HostKey, rules)
    && forall k :: 0 <= k < |rules| ==> ValidRule(rules[k]) && HostOk(accept, rules[k].host)
  }

  ghost predicate ValidConfig(accept: Acceptance, c: SessionConfig) {
    && RulesOk(accept, c.rules)
    && (c.socketName.Some? ==> IsSocketName(c.socketName.value))
    && forall name :: name in c.modes ==> IsSecretId(name)
  }

  lemma {:induction false} NamedRulesOk(accept: Acceptance, table: Table, k: nat, done: seq<HostRule>)
    requires k <= |table| && RulesOk(accept, done) && NamedRules(accept, table, k, done).Ok?
    ensures RulesOk(accept, NamedRules(accept, table, k, done).value)
    decreases |table| - k
  {
    hide NormalizeDns; hide ValidatedRule; hide ValidRule;
    if k < |table| {
      var host, n := NormalizeDns(accept, table[k].0).value, table[k].1;
      NormalizeDnsIdempotent(accept, table[k].0);
      ValidatedIsValid(Inferred(host, n), HasFeatures(n));
      NamedRulesOk(accept, table, k + 1, done + [ValidatedRule(Inferred(host, n), HasFeatures(n)).value]);
    }
  }

  /** Every accepted document yields a valid configuration: distinct normal hosts and valid rules. */
  lemma ValidatedIsOk(accept: Acceptance, d: Document)
    requires Validated(accept, d).Ok?
    ensures ValidConfig(accept, Validated(accept, d).value)
  {
    hide NamedRules; hide IsSocketName; hide IsSecretId;
    NamedRulesOk(accept, if d.rules.Some? then d.rules.value.table else [], 0, []);
  }

  // ----- wire form -----

  function NonEmpty<T>(s: seq<T>): Option<seq<T>> { if s == [] then None else Some(s) }

  function NamedOf(r: HostRule): NamedRule {
    NamedRule(Some(r.mode), Some(r.ports), NonEmpty(r.paths), NonEmpty(r.inject))
  }

  predicate LexLt(a: string, b: string) { !LexLe(b, a) }

  predicate HasKey(table: Table, key: string) { exists i :: 0 <= i < |table| && table[i].0 == key }

  /** `BTreeMap::insert`. */
  function TableInsert(table: Table, key: string, value: NamedRule): Table {
    if table == [] || LexLt(key, table[0].0) then [(key, value)] + table
    else if key == table[0].0 then [(key, value)] + table[1..]
    else [table[0]] + TableInsert(table[1..], key, value)
  }

  function TableOf(rules: seq<HostRule>): Table {
    seq(|rules|, i requires 0 <= i < |rules| => (rules[i].host, NamedOf(rules[i])))
  }

  function SortedRules(rules: seq<HostRule>): seq<HostRule> { Sort(HostLe, rules) }

  /** The document that the client sends; empty and default fields are left out. */
  function DocumentOf(c: SessionConfig, table: Table): Document {
    Document(Some(SESSION_CONFIG_VERSION), c.persistent, c.socketName,
             if c.unmatched == DenyUnmatched then None else Some("tunnel"),
             Some(Named(table)),
             if c.defaultMode.Some? || c.modes != map[] then Some(RawCredentials(c.defaultMode, c.modes)) else None,
             {})
  }

  lemma {:induction false} InsertTable(table: seq<HostRule>, r: HostRule)
    requires !HostTaken(table, r.host)
    ensures TableInsert(TableOf(table), r.host, NamedOf(r)) == TableOf(Insert(HostLe, r, table))
  {
    hide NamedOf;
    if table != [] {
      LexTotal(r.host, table[0].host);
      assert table[0].host != r.host;
      assert TableOf(table)[1..] == TableOf(table[1..]);
      if !HostLe(r, table[0]) {
        assert !HostTaken(table[1..], r.host);
        InsertTable(table[1..], r);
      } else {
        assert TableOf([r] + table) == [(r.host, NamedOf(r))] + TableOf(table);
      }
    }
  }

  lemma SortedStep(rules: seq<HostRule>, r: HostRule)
    requires DistinctBy(HostKey, rules + [r])
    ensures Insert(HostLe, r, SortedRules(rules)) == SortedRules(rules + [r])
  {
    var sorted, all := SortedRules(rules), rules + [r];
    Orders();
    SortPermutes(HostLe, rules);
    SortSorts(HostLe, rules);
    InsertPermutes(HostLe, r, sorted);
    InsertSorts(HostLe, r, sorted);
    SortPermutes(HostLe, all);
    SortSorts(HostLe, all);
    RulesSeparate(all);
    SeparatesRearranged(HostLe, all, SortedRules(all));
    hide *;
    assert multiset(all) == multiset(rules) + multiset{r};
    SortedUnique(HostLe, SortedRules(all), Insert(HostLe, r, sorted));
  }

  lemma RulesSeparate(rules: seq<HostRule>)
    requires DistinctBy(HostKey, rules)
    ensures Separates(HostLe, rules)
  {
    forall i, j | 0 <= i < |rules| && 0 <= j < |rules| && HostLe(rules[i], rules[j]) && HostLe(rules[j], rules[i])
      ensures rules[i] == rules[j]
    {
      LexTotal(rules[i].host, rules[j].host);
      assert HostKey(rules[i]) == HostKey(rules[j]);
    }
  }

  /** `CreateRequest::new`: refuses duplicate hosts, and lists the rules in host order. */
  method ToWire(c: SessionConfig) returns (r: Option<Document>)
    ensures r.Some? <==> DistinctBy(HostKey, c.rules)
    ensures r.Some? ==> r.value == DocumentOf(c, TableOf(SortedRules(c.rules)))
  {
    hide TableInsert; hide NamedOf;
    var table: Table := [];
    for k := 0 to |c.rules|
      invariant DistinctBy(HostKey, c.rules[..k])
      invariant table == TableOf(SortedRules(c.rules[..k]))
    {
      var rule := c.rules[k];
      KeyIsTaken(c.rules, k);
      if HasKey(table, rule.host) { return None; }
      assert c.rules[..k + 1] == c.rules[..k] + [rule];
      SortedStep(c.rules[..k], rule);
      InsertTable(SortedRules(c.rules[..k]), rule);
      table := TableInsert(table, rule.host, NamedOf(rule));
    }
    assert c.rules[..|c.rules|] == c.rules;
    return Some(DocumentOf(c, table));
  }

  /** The table holds a host exactly when an earlier rule has it. */
  lemma KeyIsTaken(rules: seq<HostRule>, k: nat)
    requires k < |rules| && DistinctBy(HostKey, rules[..k])
    ensures HasKey(TableOf(SortedRules(rules[..k])), rules[k].host) ==> !DistinctBy(HostKey, rules)
    ensures !HasKey(TableOf(SortedRules(rules[..k])), rules[k].host) ==>
              DistinctBy(HostKey, rules[..k + 1]) && !HostTaken(SortedRules(rules[..k]), rules[k].host)
  {
    hide NamedOf;
    var front, sorted, host := rules[..k], SortedRules(rules[..k]), rules[k].host;
    SortPermutes(HostLe, front);
    if HasKey(TableOf(sorted), host) {
      var i :| 0 <= i < |sorted| && TableOf(sorted)[i].0 == host;
      Rearranged(sorted, front, sorted[i]);
      var j :| 0 <= j < k && front[j] == sorted[i];
      assert HostKey(rules[j]) == HostKey(rules[k]);
    } else {
      forall j | 0 <= j < k ensures HostKey(rules[j]) != host {
        Rearranged(front, sorted, front[j]);
        var i :| 0 <= i < |sorted| && sorted[i] == front[j];
        assert TableOf(sorted)[i].0 == rules[j].host;
      }
      assert !HostTaken(sorted, host) by {
        forall i | 0 <= i < |sorted| ensures sorted[i].host != host { assert TableOf(sorted)[i].0 == sorted[i].host; }
      }
      var all := rules[..k + 1];
      forall i, j | 0 <= i < j < |all| ensures HostKey(all[i]) != HostKey(all[j]) {
        if j < k { assert HostKey(front[i]) != HostKey(front[j]); }
      }
    }
  }

  // ----- round trip -----

  lemma InferredBack(r: HostRule)
    ensures Inferred(r.host, NamedOf(r)) == r && (HasFeatures(NamedOf(r)) <==> r.paths != [] || r.inject != [])
  {
  }

  lemma {:induction false} NamedRulesBack(accept: Acceptance, rules: seq<HostRule>, k: nat)
    requires k <= |rules| && RulesOk(accept, rules)
    ensures NamedRules(accept, TableOf(rules), k, rules[..k]) == Ok(rules)
    decreases |rules| - k
  {
    hide NormalizeDns; hide ValidatedRule; hide ValidRule; hide NamedOf; hide Inferred; hide HasFeatures;
    if k < |rules| {
      InferredBack(rules[k]);
      ValidValidates(rules[k]);
      assert !HostTaken(rules[..k], rules[k].host) by {
        forall i | 0 <= i < k ensures rules[..k][i].host != rules[k].host {
          assert HostKey(rules[i]) != HostKey(rules[k]);
        }
      }
      assert rules[..k] + [rules[k]] == rules[..k + 1];
      NamedRulesBack(accept, rules, k + 1);
    } else {
      assert rules[..k] == rules;
    }
  }

  lemma SortedRulesOk(accept: Acceptance, rules: seq<HostRule>)
    requires RulesOk(accept, rules)
    ensures RulesOk(accept, SortedRules(rules))
  {
    hide ValidRule; hide HostOk;
    var sorted := SortedRules(rules);
    SortPermutes(HostLe, rules);
    forall k | 0 <= k < |sorted| ensures ValidRule(sorted[k]) && HostOk(accept, sorted[k].host) {
      Rearranged(sorted, rules, sorted[k]);
    }
    DistinctRearranged(rules, sorted);
  }

  /** Sending a valid configuration and validating it again returns it, with its rules in host order. */
  lemma WireRoundTrip(accept: Acceptance, c: SessionConfig)
    requires ValidConfig(accept, c)
    ensures Validated(accept, DocumentOf(c, TableOf(SortedRules(c.rules)))) == Ok(c.(rules := SortedRules(c.rules)))
  {
    hide IsSocketName; hide IsSecretId; hide NamedRules; hide RulesOk; hide TableOf; hide SortedRules;
    var sorted := SortedRules(c.rules);
    SortedRulesOk(accept, c.rules);
    NamedRulesBack(accept, sorted, 0);
    assert sorted[..0] == [];
    assert "deny" != "tunnel" by { assert |"deny"| == 4; }
  }

  /** So one validation, printing and validation again agree with one validation, up to rule order. */
  lemma ValidatedRoundTrip(accept: Acceptance, d: Document)
    requires Validated(accept, d).Ok?
    ensures var c := Validated(accept, d).value;
            Validated(accept, DocumentOf(c, TableOf(SortedRules(c.rules)))) == Ok(c.(rules := SortedRules(c.rules)))
  {
    hide Validated;
    ValidatedIsOk(accept, d);
    WireRoundTrip(accept, Validated(accept, d).value);
  }

  lemma ValidHasNoDuplicates(accept: Acceptance, c: SessionConfig)
    requires ValidConfig(accept, c)
    ensures NoDuplicates(c.rules)
  {
    hide PathsOk; hide PortsOk; hide IsSocketName; hide IsSecretId; hide HostOk; hide FieldsOk;
  }

  /** The order that the wire form imposes is invisible to a reload: the daemon would call it unchanged. */
  lemma WireIsUnchanged(accept: Acceptance, c: SessionConfig)
    requires ValidConfig(accept, c)
    ensures SameConfiguration(c, c.(rules := SortedRules(c.rules)))
  {
    ValidHasNoDuplicates(accept, c);
    hide ValidConfig; hide SameRules; hide NoDuplicates; hide MeaningOf;
    SortPermutes(HostLe, c.rules);
    MapRearranged(MeaningOf, c.rules, SortedRules(c.rules));
    SameRulesIffSameMeaning(c.rules, SortedRules(c.rules));
  }

  // ----- acceptance -----

  /**
   The rule for one entry of the table: the host in normal form; the given mode, or interception exactly if the entry
   has paths or injections; the given ports, or 443; and the rest as given, with its paths respelled.
   */
  ghost predicate IsRuleFor(accept: Acceptance, entry: (string, NamedRule), r: HostRule) {
    var (host, n) := entry;
    var features := n.paths.Some? || n.inject.Some?;
    && NormalizeDns(accept, host) == Some(r.host)
    && (n.mode.Some? ==> r.mode == n.mode.value) && (n.mode.None? ==> (r.mode == Intercept <==> features))
    && (n.ports.Some? ==> r.ports == n.ports.value) && (n.ports.None? ==> r.ports == [443])
    && (n.inject.Some? ==> r.inject == n.inject.value) && (n.inject.None? ==> r.inject == [])
    && (n.paths.Some? ==> Respelled(n.paths.value, r.paths)) && (n.paths.None? ==> r.paths == [])
    && r.ports != [] && PortsOk(r.ports) && !(r.mode == Tunnel && features) && InjectOk(r.inject) && NoOverlaps(r.paths)
  }

  lemma RuleForEntry(accept: Acceptance, entry: (string, NamedRule), r: HostRule)
    ensures IsRuleFor(accept, entry, r) <==>
            var host := NormalizeDns(accept, entry.0);
            host.Some? && ValidatedRule(Inferred(host.value, entry.1), HasFeatures(entry.1)) == Ok(r)
  {
    hide NormalizeDns; hide ValidatedRule; hide PortsOk; hide InjectOk; hide NoOverlaps;
    var host := NormalizeDns(accept, entry.0);
    if host.Some? {
      var rule := Inferred(host.value, entry.1);
      ValidatesExactly(rule, HasFeatures(entry.1), r);
      assert rule.paths == [] ==> (Respelled(rule.paths, r.paths) <==> r.paths == []);
    }
  }

  ghost predicate AreRulesFor(accept: Acceptance, table: Table, from: nat, done: seq<HostRule>, rules: seq<HostRule>)
    requires from <= |table|
  {
    && |rules| == |done| + |table| - from && done <= rules
    && (forall k :: from <= k < |table| ==> IsRuleFor(accept, table[k], rules[|done| + k - from]))
    && (forall i, j :: 0 <= i < j < |rules| && |done| <= j ==> rules[i].host != rules[j].host)
  }

  /** A table is accepted, as `rules`, exactly if these are the rules for its entries, in order, with distinct hosts. */
  lemma {:induction false} NamesExactly(accept: Acceptance, table: Table, k: nat, done: seq<HostRule>, rules: seq<HostRule>)
    requires k <= |table|
    ensures NamedRules(accept, table, k, done) == Ok(rules) <==> AreRulesFor(accept, table, k, done, rules)
    decreases |table| - k
  {
    hide NormalizeDns; hide ValidatedRule; hide IsRuleFor; hide Inferred; hide HasFeatures;
    if k == |table| {
      assert AreRulesFor(accept, table, k, done, rules) <==> rules == done;
    } else {
      var host := NormalizeDns(accept, table[k].0);
      forall r ensures IsRuleFor(accept, table[k], r) <==>
                       host.Some? && ValidatedRule(Inferred(host.value, table[k].1), HasFeatures(table[k].1)) == Ok(r) {
        RuleForEntry(accept, table[k], r);
      }
      if host.Some? && ValidatedRule(Inferred(host.value, table[k].1), HasFeatures(table[k].1)).Ok? {
        var r := ValidatedRule(Inferred(host.value, table[k].1), HasFeatures(table[k].1)).value;
        RuleHost(accept, table[k], r);
        NamesExactly(accept, table, k + 1, done + [r], rules);
        NextRule(accept, table, k, done, rules, r);
      }
    }
  }

  lemma RuleHost(accept: Acceptance, entry: (string, NamedRule), r: HostRule)
    requires IsRuleFor(accept, entry, r)
    ensures NormalizeDns(accept, entry.0) == Some(r.host)
  {
    hide NormalizeDns;
  }

  lemma NextRule(accept: Acceptance, table: Table, k: nat, done: seq<HostRule>, rules: seq<HostRule>, r: HostRule)
    requires k < |table| && IsRuleFor(accept, table[k], r)
    requires forall q :: IsRuleFor(accept, table[k], q) ==> q == r
    ensures AreRulesFor(accept, table, k, done, rules) <==>
            !HostTaken(done, r.host) && AreRulesFor(accept, table, k + 1, done + [r], rules)
  {
    hide IsRuleFor;
    if AreRulesFor(accept, table, k, done, rules) {
      assert IsRuleFor(accept, table[k], rules[|done| + k - k]);
      assert rules[|done|] == r;
      assert forall i :: 0 <= i < |done| ==> done[i] == rules[i];
      assert rules[..|done| + 1] == done + [r];
      forall j | k + 1 <= j < |table| ensures IsRuleFor(accept, table[j], rules[|done + [r]| + j - (k + 1)]) {
        assert IsRuleFor(accept, table[j], rules[|done| + j - k]);
      }
    }
    if !HostTaken(done, r.host) && AreRulesFor(accept, table, k + 1, done + [r], rules) {
      assert rules[|done|] == (done + [r])[|done|] == r;
      assert forall i :: 0 <= i < |done| ==> (done + [r])[i] == done[i] == rules[i];
      forall j | k <= j < |table| ensures IsRuleFor(accept, table[j], rules[|done| + j - k]) {
        if j > k { assert IsRuleFor(accept, table[j], rules[|done + [r]| + j - (k + 1)]); }
      }
    }
  }

  /**
   A document is accepted, as `c`, exactly if it has version 2, no unsupported field, a known word for unmatched hosts,
   rules for its table, a valid socket name and valid secret names; its other fields are taken over, and a missing word
   denies unmatched hosts.
   */
  lemma AcceptsExactly(accept: Acceptance, d: Document, c: SessionConfig)
    ensures Validated(accept, d) == Ok(c) <==>
            && d.version == Some(2) && d.unsupported == {} && (d.rules.Some? ==> d.rules.value.Named?)
            && AreRulesFor(accept, if d.rules.Some? then d.rules.value.table else [], 0, [], c.rules)
            && (d.unmatched == Some("tunnel") || d.unmatched in {None, Some("deny")})
            && (c.unmatched == TunnelUnmatched <==> d.unmatched == Some("tunnel"))
            && c.socketName == d.socketName && (d.socketName.Some? ==> IsSocketName(d.socketName.value))
            && c.persistent == d.persistent
            && (d.credentials.Some? ==> c.defaultMode == d.credentials.value.defaultMode && c.modes == d.credentials.value.overrides)
            && (d.credentials.None? ==> c.defaultMode == None && c.modes == map[])
            && (forall name :: name in c.modes ==> IsSecretId(name))
  {
    hide NamedRules; hide AreRulesFor; hide IsSocketName; hide IsSecretId;
    if !(d.rules.Some? && d.rules.value.Other?) {
      NamesExactly(accept, if d.rules.Some? then d.rules.value.table else [], 0, [], c.rules);
    }
    assert "deny" != "tunnel" by { assert |"deny"| == 4; }
  }
}
