/** What happens to a decrypted request (src/proxy_runtime/rama/http.rs:66-142), and reloads that change nothing. */
module Serving {
  import opened Basics
  import opened Config
  import opened Text
  import opened Policy
  import opened Credentials
  import opened Sorting
  import opened Effective

  datatype Message = Message(
    verb: string, scheme: Option<string>, authority: Option<string>, path: Option<string>, headers: Headers)

  function TrimLeft(s: string): string { if s != [] && s[0] in " \t" then TrimLeft(s[1..]) else s }

  function TrimRight(s: string): string {
    if s != [] && s[|s| - 1] in " \t" then TrimRight(s[..|s| - 1]) else s
  }

  predicate NamesUpgrade(value: string) {
    && IsVisible(value)
    && exists k :: 0 <= k < |Split(value, ',')| && EqualFold(TrimLeft(TrimRight(Split(value, ',')[k])), "upgrade")
  }

  predicate HasUpgrade(h: Headers) {
    "upgrade" in h || exists k :: 0 <= k < |Values(h, "connection")| && NamesUpgrade(Values(h, "connection")[k])
  }

  predicate UsesCredentials(credentials: seq<Credential>) {
    exists k :: 0 <= k < |credentials| && credentials[k].mode != Disabled
  }

  function FactsOf(m: Message): Facts {
    Facts(m.verb, m.scheme, m.authority, if m.path.Some? then m.path.value else "/", Values(m.headers, "host"))
  }

  predicate HostsReadable(h: Headers) {
    forall k :: 0 <= k < |Values(h, "host")| ==> IsVisible(Values(h, "host")[k])
  }

  /** The request that is forwarded, or why it is denied. */
  function Serve(f: Foreign, policy: SessionPolicy, secrets: Secrets, connect: string, m: Message)
    : Result<Message, AuthorizationError>
  {
    if !HostsReadable(m.headers) then Err(InvalidAuthority)
    else
      var a := AuthorizeIntercepted(f, policy, FactsOf(m), connect);
      if a.Err? then Err(a.error)
      else
        var (credentials, path) := a.value;
        if UsesCredentials(credentials) && HasUpgrade(m.headers) then Err(Denied)
        else
          var out := Applied(m.headers, credentials, secrets);
          if out.Err? then Err(Denied)
          else Ok(m.(path := if path.Some? then path else m.path, headers := out.value))
  }

  /** The handler: it canonicalises the path of the request and rewrites its headers in place. */
  method Handle(
    f: Foreign, policy: SessionPolicy, secrets: Secrets, connect: string,
    verb: string, scheme: Option<string>, authority: Option<string>, request: Request)
    returns (denied: Option<AuthorizationError>)
    modifies request
    ensures var m := Message(verb, scheme, authority, old(request.path), old(request.headers));
            match Serve(f, policy, secrets, connect, m)
            case Ok(out) => denied == None && request.path == out.path && request.headers == out.headers
            case Err(error) => denied == Some(error) && request.headers == old(request.headers)
  {
    hide AuthorizeIntercepted; hide Applied; hide HasUpgrade;
    var hosts := Values(request.headers, "host");
    for k := 0 to |hosts|
      invariant forall i :: 0 <= i < k ==> IsVisible(hosts[i])
      invariant request.headers == old(request.headers) && request.path == old(request.path)
    {
      if !IsVisible(hosts[k]) { return Some(InvalidAuthority); }
    }
    ghost var m := Message(verb, scheme, authority, request.path, request.headers);
    assert HostsReadable(m.headers);
    hide HostsReadable; hide IsVisible;
    var a := AuthorizeIntercepted(
      f, policy, Facts(verb, scheme, authority, if request.path.Some? then request.path.value else "/", hosts), connect);
    if a.Err? { return Some(a.error); }
    var (credentials, path) := a.value;
    if path.Some? { request.path := path; }
    if UsesCredentials(credentials) && HasUpgrade(request.headers) { return Some(Denied); }
    var ok := request.ApplyHeaderCredentials(credentials, secrets);
    if !ok { return Some(Denied); }
    return None;
  }

  // ----- rules with the same meaning -----

  lemma MeaningFound(left: seq<HostRule>, right: seq<HostRule>, r: HostRule) returns (q: HostRule)
    requires SameRules(left, right) && r in left
    ensures q in right && MeaningOf(q) == MeaningOf(r)
  {
    hide SameRules; hide MeaningOf;
    SameRulesIffSameMeaning(left, right);
    var k :| 0 <= k < |left| && left[k] == r;
    var ls, rs := Map(MeaningOf, left), Map(MeaningOf, right);
    assert ls[k] == MeaningOf(r);
    Rearranged(ls, rs, ls[k]);
    var j :| 0 <= j < |rs| && rs[j] == ls[k];
    q := right[j];
  }

  lemma SamePorts(r: HostRule, q: HostRule)
    requires MeaningOf(r) == MeaningOf(q)
    ensures PortSet(r.ports) == PortSet(q.ports) && r.mode == q.mode && r.host == q.host
  {
    forall p ensures p in r.ports <==> p in q.ports {
      assert p in r.ports <==> p in multiset(r.ports);
      assert p in q.ports <==> p in multiset(q.ports);
    }
  }

  lemma SamePaths(a: seq<string>, b: seq<string>, path: string)
    requires multiset(a) == multiset(b)
    ensures AuthorizedPath(a, path) == AuthorizedPath(b, path)
  {
    hide Paths.MatchesPattern; hide Paths.Canonical;
    assert |a| == |multiset(a)| == |multiset(b)| == |b|;
    forall p ensures p in a <==> p in b { assert p in a <==> p in multiset(a); assert p in b <==> p in multiset(b); }
    forall c ensures AnyMatches(a, c) <==> AnyMatches(b, c) {
      if AnyMatches(a, c) { var k :| 0 <= k < |a| && Paths.MatchesPattern(a[k], c); assert a[k] in b; }
      if AnyMatches(b, c) { var k :| 0 <= k < |b| && Paths.MatchesPattern(b[k], c); assert b[k] in a; }
    }
  }

  ghost predicate SameModes(a: SessionConfig, b: SessionConfig) { a.defaultMode == b.defaultMode && a.modes == b.modes }

  lemma SameCompiled(f: Foreign, a: SessionConfig, b: SessionConfig, seed: Seed, i: HeaderInjection, j: HeaderInjection)
    requires SameModes(a, b) && LowerHeader(i) == LowerHeader(j)
    ensures LowerCredential(CompileInjection(f, a, seed, i)) == LowerCredential(CompileInjection(f, b, seed, j))
  {
  }

  lemma CredentialsCover(f: Foreign, a: SessionConfig, b: SessionConfig, seed: Seed, r: HostRule, q: HostRule)
    requires SameModes(a, b) && MeaningOf(r) == MeaningOf(q)
    ensures Covers(CompileInjections(f, a, seed, r.inject), CompileInjections(f, b, seed, q.inject))
  {
    hide LowerCredential; hide CompileInjection; hide LowerHeader; hide SameModes; hide CompileInjections;
    var left, right := CompileInjections(f, a, seed, r.inject), CompileInjections(f, b, seed, q.inject);
    forall j | 0 <= j < |right| ensures CoveredBy(left, right[j]) {
      var i := CoveringIndex(r, q, j);
      SameCompiled(f, a, b, seed, r.inject[i], q.inject[j]);
      assert LowerCredential(left[i]) == LowerCredential(right[j]);
    }
  }

  lemma CoveringIndex(r: HostRule, q: HostRule, j: nat) returns (i: nat)
    requires MeaningOf(r) == MeaningOf(q) && j < |q.inject|
    ensures i < |r.inject| && LowerHeader(r.inject[i]) == LowerHeader(q.inject[j])
  {
    var ls, rs := Map(LowerHeader, r.inject), Map(LowerHeader, q.inject);
    Rearranged(rs, ls, rs[j]);
    i :| 0 <= i < |ls| && ls[i] == rs[j];
  }

  lemma CompiledDistinct(f: Foreign, config: SessionConfig, seed: Seed, r: HostRule)
    requires DistinctBy(HeaderKey, r.inject)
    ensures DistinctHeaders(CompileInjections(f, config, seed, r.inject))
  {
    var credentials := CompileInjections(f, config, seed, r.inject);
    forall i, j | 0 <= i < j < |credentials|
      ensures Lower(credentials[i].injection.header) != Lower(credentials[j].injection.header)
    {
      assert HeaderKey(r.inject[i]) != HeaderKey(r.inject[j]);
    }
  }

  lemma SameUse(a: seq<Credential>, b: seq<Credential>)
    requires Covers(a, b) && UsesCredentials(b)
    ensures UsesCredentials(a)
  {
    var j :| 0 <= j < |b| && b[j].mode != Disabled;
    assert CoveredBy(a, b[j]);
    var i :| 0 <= i < |a| && LowerCredential(a[i]) == LowerCredential(b[j]);
  }

  /** Compiled rules that authorize alike and rewrite alike. */
  ghost predicate Alike(r: CompiledRule, q: CompiledRule) {
    && r.mode == q.mode && r.ports == q.ports && multiset(r.paths) == multiset(q.paths)
    && DistinctHeaders(r.credentials) && DistinctHeaders(q.credentials)
    && Covers(r.credentials, q.credentials) && Covers(q.credentials, r.credentials)
  }

  lemma RulesAlike(f: Foreign, a: SessionConfig, b: SessionConfig, seed: Seed, r: HostRule, q: HostRule)
    requires SameModes(a, b) && MeaningOf(r) == MeaningOf(q)
    requires DistinctBy(HeaderKey, r.inject) && DistinctBy(HeaderKey, q.inject)
    ensures Alike(CompileRule(f, a, seed, r), CompileRule(f, b, seed, q))
  {
    SamePorts(r, q);
    CredentialsCover(f, a, b, seed, r, q);
    CredentialsCover(f, b, a, seed, q, r);
    CompiledDistinct(f, a, seed, r);
    CompiledDistinct(f, b, seed, q);
  }

  ghost predicate PoliciesAlike(p: SessionPolicy, q: SessionPolicy) {
    && p.unmatched == q.unmatched && p.rules.Keys == q.rules.Keys
    && forall host :: host in p.rules ==> Alike(p.rules[host], q.rules[host])
  }

  lemma ScanFinds(rules: seq<HostRule>, r: HostRule)
    requires DistinctBy(HostKey, rules) && r in rules
    ensures Scan(rules, r.host) == Some(r)
  {
    var q := Scan(rules, r.host).value;
    var i :| 0 <= i < |rules| && rules[i] == r;
    var j :| 0 <= j < |rules| && rules[j] == q;
    assert HostKey(rules[i]) == HostKey(rules[j]);
  }

  lemma HostAlike(f: Foreign, a: SessionConfig, b: SessionConfig, seed: Seed, host: string)
    requires SameRules(a.rules, b.rules) && SameModes(a, b) && NoDuplicates(a.rules) && NoDuplicates(b.rules)
    requires host in Compile(f, a, seed).rules
    ensures host in Compile(f, b, seed).rules && Alike(Compile(f, a, seed).rules[host], Compile(f, b, seed).rules[host])
  {
    hide SameRules; hide MeaningOf; hide CompileRule; hide Alike; hide SameModes;
    CompileAgreesWithScan(f, a, seed, a.rules, host);
    var r := Scan(a.rules, host).value;
    var q := MeaningFound(a.rules, b.rules, r);
    MeaningHost(r, q);
    ScanFinds(b.rules, q);
    CompileAgreesWithScan(f, b, seed, b.rules, host);
    RulesAlike(f, a, b, seed, r, q);
  }

  lemma MeaningHost(r: HostRule, q: HostRule)
    requires MeaningOf(r) == MeaningOf(q)
    ensures r.host == q.host
  {
  }

  /** Unchanged configurations compile to policies that behave alike. */
  lemma UnchangedCompiles(f: Foreign, a: SessionConfig, b: SessionConfig, seed: Seed)
    requires SameConfiguration(a, b) && NoDuplicates(a.rules) && NoDuplicates(b.rules)
    ensures PoliciesAlike(Compile(f, a, seed), Compile(f, b, seed))
  {
    hide SameRules; hide NoDuplicates; hide Alike; hide CompileRules;
    forall host | host in Compile(f, a, seed).rules
      ensures host in Compile(f, b, seed).rules && Alike(Compile(f, a, seed).rules[host], Compile(f, b, seed).rules[host])
    {
      HostAlike(f, a, b, seed, host);
    }
    SameRulesSymmetric(a.rules, b.rules);
    forall host | host in Compile(f, b, seed).rules ensures host in Compile(f, a, seed).rules {
      HostAlike(f, b, a, seed, host);
    }
  }

  lemma SameRulesSymmetric(left: seq<HostRule>, right: seq<HostRule>)
    ensures SameRules(left, right) <==> SameRules(right, left)
  {
  }

  lemma AlikeAuthorizes(f: Foreign, p: SessionPolicy, q: SessionPolicy, authority: string, hosts: seq<string>)
    requires PoliciesAlike(p, q)
    ensures AuthorizeConnect(f, p, authority, hosts) == AuthorizeConnect(f, q, authority, hosts)
  {
    hide ParseAuthority; hide CheckHosts; hide Covers; hide DistinctHeaders;
  }

  lemma AlikeServes(f: Foreign, p: SessionPolicy, q: SessionPolicy, secrets: Secrets, connect: string, m: Message)
    requires PoliciesAlike(p, q)
    ensures Serve(f, p, secrets, connect, m) == Serve(f, q, secrets, connect, m)
  {
    hide AgreedDestination; hide HostsReadable; hide Covers; hide DistinctHeaders; hide Applied; hide AuthorizedPath;
    hide UsesCredentials; hide HasUpgrade;
    var d := AgreedDestination(f, FactsOf(m), connect);
    if d.Ok? && d.value.host in p.rules {
      var r, s := p.rules[d.value.host], q.rules[d.value.host];
      assert Alike(r, s);
      SamePaths(r.paths, s.paths, FactsOf(m).path);
      OrderIndependent(m.headers, r.credentials, s.credentials, secrets);
      if UsesCredentials(r.credentials) { SameUse(s.credentials, r.credentials); }
      if UsesCredentials(s.credentials) { SameUse(r.credentials, s.credentials); }
    }
  }

  /**
   An "unchanged" reload changes nothing: under one seed and one set of secrets, every CONNECT, every TLS
   interception test and every decrypted request has the same outcome, down to the outgoing headers.
   */
  lemma UnchangedIsSound(
    f: Foreign, a: SessionConfig, b: SessionConfig, seed: Seed, secrets: Secrets,
    authority: string, hosts: seq<string>, serverName: Option<string>, m: Message)
    requires SameConfiguration(a, b) && NoDuplicates(a.rules) && NoDuplicates(b.rules)
    ensures AuthorizeConnect(f, Compile(f, a, seed), authority, hosts) == AuthorizeConnect(f, Compile(f, b, seed), authority, hosts)
    ensures PermitsInterception(f, Compile(f, a, seed), authority, serverName)
         == PermitsInterception(f, Compile(f, b, seed), authority, serverName)
    ensures Serve(f, Compile(f, a, seed), secrets, authority, m) == Serve(f, Compile(f, b, seed), secrets, authority, m)
  {
    hide SameConfiguration; hide NoDuplicates; hide PoliciesAlike; hide Compile; hide AuthorizeConnect; hide Serve;
    UnchangedCompiles(f, a, b, seed);
    AlikeAuthorizes(f, Compile(f, a, seed), Compile(f, b, seed), authority, hosts);
    AlikeAuthorizes(f, Compile(f, a, seed), Compile(f, b, seed), authority, []);
    AlikeServes(f, Compile(f, a, seed), Compile(f, b, seed), secrets, authority, m);
  }
}
