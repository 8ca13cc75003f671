/** The authorization policy of a session (src/policy.rs). */
module Policy {
  import opened Basics
  import opened Config
  import opened Text
  import opened Dns
  import opened Paths

  /** Foreign computations: host acceptance and the derivation of fake credentials from a seed. */
  datatype Foreign = Foreign(accept: Acceptance, fake: (Seed, string) -> string)

  datatype AuthorizationError = InvalidAuthority | Denied

  datatype Destination = Destination(host: string, port: nat)

  datatype Credential = Credential(injection: HeaderInjection, mode: CredentialMode, fake: Option<string>)

  datatype CompiledRule = CompiledRule(
    mode: RuleMode, ports: set<nat>, paths: seq<string>, credentials: seq<Credential>)

  datatype SessionPolicy = SessionPolicy(rules: map<string, CompiledRule>, unmatched: UnmatchedHostPolicy)

  datatype Facts = Facts(
    verb: string, scheme: Option<string>, authority: Option<string>, path: string, hosts: seq<string>)

  function CompileInjection(f: Foreign, config: SessionConfig, seed: Seed, i: HeaderInjection): Credential {
    var mode := EffectiveMode(config, i.secret);
    Credential(i, mode, if mode == Substitute then Some(f.fake(seed, i.secret)) else None)
  }

  function CompileInjections(f: Foreign, config: SessionConfig, seed: Seed, inject: seq<HeaderInjection>)
    : (r: seq<Credential>)
    ensures |r| == |inject| && forall k :: 0 <= k < |r| ==> r[k] == CompileInjection(f, config, seed, inject[k])
  {
    seq(|inject|, k requires 0 <= k < |inject| => CompileInjection(f, config, seed, inject[k]))
  }

  function PortSet(ports: seq<nat>): set<nat> { set p | p in ports }

  function CompileRule(f: Foreign, config: SessionConfig, seed: Seed, r: HostRule): CompiledRule {
    CompiledRule(r.mode, PortSet(r.ports), r.paths, CompileInjections(f, config, seed, r.inject))
  }

  /** Collects the rules into a map; a later rule for the same host replaces an earlier one. */
  function CompileRules(f: Foreign, config: SessionConfig, seed: Seed, rules: seq<HostRule>)
    : map<string, CompiledRule>
  {
    if rules == [] then map[]
    else
      var last := rules[|rules| - 1];
      CompileRules(f, config, seed, rules[..|rules| - 1])[last.host := CompileRule(f, config, seed, last)]
  }

  function Compile(f: Foreign, config: SessionConfig, seed: Seed): SessionPolicy {
    SessionPolicy(CompileRules(f, config, seed, config.rules), config.unmatched)
  }

  // ----- authorities -----

  predicate AllDigits(s: string) { forall i :: 0 <= i < |s| ==> IsDigit(s[i]) }

  function Decimal(s: string): nat
    requires AllDigits(s)
  {
    if s == [] then 0 else Decimal(s[..|s| - 1]) * 10 + (s[|s| - 1] as int - '0' as int)
  }

  /** `str::parse::<u16>`: an optional plus sign, then digits. */
  function ParsePort(s: string): (r: Option<nat>)
    ensures r.Some? ==> r.value <= 65535
  {
    var digits := if |s| > 1 && s[0] == '+' then s[1..] else s;
    if digits == [] || !AllDigits(digits) || Decimal(digits) > 65535 then None else Some(Decimal(digits))
  }

  function ParseAuthority(f: Foreign, authority: string): Result<Destination, AuthorizationError> {
    if authority == [] || (exists i :: 0 <= i < |authority| && (authority[i] >= 128 as char || authority[i] in "@%"))
    then Err(InvalidAuthority)
    else
      var split := SplitOnce(authority, ':');
      if split.Some? && ':' in split.value.0 then Err(InvalidAuthority)  // src/policy.rs:213
      else
        var host := if split.Some? then split.value.0 else authority;
        var port := if split.Some? then ParsePort(split.value.1) else Some(443);
        if port.None? || port.value == 0 then Err(InvalidAuthority)
        else
          var name := NormalizeDns(f.accept, host);
          if name.None? then Err(InvalidAuthority) else Ok(Destination(name.value, port.value))
  }

  /** The branch for a host part with a colon (src/policy.rs:213) is dead. */
  lemma HostPartHasNoColon(authority: string)
    ensures SplitOnce(authority, ':').Some? ==> ':' !in SplitOnce(authority, ':').value.0
  {
  }

  // ----- authorization -----

  function CheckHosts(f: Foreign, hosts: seq<string>, d: Destination): Option<AuthorizationError> {
    if |hosts| > 1 then Some(InvalidAuthority)
    else if |hosts| == 1 && ParseAuthority(f, hosts[0]) != Ok(d) then Some(InvalidAuthority)
    else None
  }

  function AuthorizeConnect(f: Foreign, policy: SessionPolicy, authority: string, hosts: seq<string>)
    : Result<(RuleMode, Destination), AuthorizationError>
  {
    var parsed := ParseAuthority(f, authority);
    if parsed.Err? then Err(parsed.error)
    else
      var d := parsed.value;
      var checked := CheckHosts(f, hosts, d);
      if checked.Some? then Err(checked.value)
      else if d.host in policy.rules then
        if d.port in policy.rules[d.host].ports then Ok((policy.rules[d.host].mode, d)) else Err(Denied)
      else if policy.unmatched == TunnelUnmatched && d.port == 443 then Ok((Tunnel, d))
      else Err(Denied)
  }

  /** Connect authority and server name of a TLS handshake identify one intercept rule. */
  predicate PermitsInterception(f: Foreign, policy: SessionPolicy, authority: string, serverName: Option<string>) {
    var a := AuthorizeConnect(f, policy, authority, []);
    && a.Ok? && serverName.Some? && a.value.0 == Intercept
    && NormalizeDns(f.accept, serverName.value) == Some(a.value.1.host)
  }

  function EqualFold(a: string, b: string): bool { Lower(a) == Lower(b) }

  predicate AnyMatches(paths: seq<string>, path: string) {
    exists k :: 0 <= k < |paths| && MatchesPattern(paths[k], path)
  }

  /** The path that the rule allows, in canonical form; no path list allows every path as it is. */
  function AuthorizedPath(paths: seq<string>, path: string): Result<Option<string>, AuthorizationError> {
    if paths == [] then Ok(None)
    else
      var c := Canonical(if path == [] then "/" else path);
      if c.Err? || !AnyMatches(paths, c.value) then Err(Denied)
      else Ok(Some(c.value))
  }

  /** The destination that the CONNECT authority, the URI and the Host header agree on. */
  function AgreedDestination(f: Foreign, facts: Facts, connect: string): Result<Destination, AuthorizationError> {
    if EqualFold(facts.verb, "CONNECT") || (facts.scheme.Some? && !EqualFold(facts.scheme.value, "https"))
    then Err(InvalidAuthority)
    else
      var c := ParseAuthority(f, connect);
      var agrees := (authority: string) => ParseAuthority(f, authority) == c;
      if c.Err? || |facts.hosts| > 1 || (facts.authority.None? && facts.hosts == [])
         || (facts.authority.Some? && !agrees(facts.authority.value))
         || (facts.hosts != [] && !agrees(facts.hosts[0]))
      then Err(InvalidAuthority)
      else c
  }

  function AuthorizeIntercepted(f: Foreign, policy: SessionPolicy, facts: Facts, connect: string)
    : Result<(seq<Credential>, Option<string>), AuthorizationError>
  {
    var d := AgreedDestination(f, facts, connect);
    if d.Err? then Err(d.error)
    else if d.value.host !in policy.rules || d.value.port !in policy.rules[d.value.host].ports then Err(Denied)
    else
      var rule := policy.rules[d.value.host];
      var path := AuthorizedPath(rule.paths, facts.path);
      if path.Err? then Err(path.error) else Ok((rule.credentials, path.value))
  }

  // ----- the compiled index against a scan of the rule list -----

  /** The rule for a host: the last one in the list. */
  function Scan(rules: seq<HostRule>, host: string): (r: Option<HostRule>)
    ensures r.Some? ==> r.value in rules && r.value.host == host
    ensures r.None? ==> forall q :: q in rules ==> q.host != host
  {
    if rules == [] then None
    else if rules[|rules| - 1].host == host then Some(rules[|rules| - 1])
    else Scan(rules[..|rules| - 1], host)
  }

  lemma {:induction false} CompileAgreesWithScan(
    f: Foreign, config: SessionConfig, seed: Seed, rules: seq<HostRule>, host: string)
    ensures var compiled, r := CompileRules(f, config, seed, rules), Scan(rules, host);
            (host in compiled <==> r.Some?) && (r.Some? ==> compiled[host] == CompileRule(f, config, seed, r.value))
  {
    if rules != [] { CompileAgreesWithScan(f, config, seed, rules[..|rules| - 1], host); }
  }
}
