/** What the policy of a session allows, in terms of its rule list (src/policy.rs:96-249). */
module Authorization {
  import opened Basics
  import opened Config
  import opened Text
  import opened Dns
  import opened Paths
  import opened Policy

  // ----- host names and ports -----

  lemma DotEnds(s: string, h: string)
    ensures s == h + "." ==> EndsWith(s, ".") && StripDot(s) == h
    ensures EndsWith(s, ".") ==> s == StripDot(s) + "."
  {
  }

  lemma HostHasNoStar(accept: Acceptance, input: string, h: string)
    requires IsHost(accept, h) && (Lower(input) == h || Lower(input) == h + ".")
    ensures input != [] && '*' !in input
  {
    HostCharacters(accept, h);
    assert forall i :: 0 <= i < |input| ==> Lower(input)[i] == LowerChar(input[i]);
  }

  /** A name normalises to `h` exactly if `h` is a lower-case host that the name spells, perhaps with a final dot. */
  lemma NormalizesExactly(accept: Acceptance, input: string, h: string)
    ensures NormalizeDns(accept, input) == Some(h) <==>
            IsHost(accept, h) && (Lower(input) == h || Lower(input) == h + ".")
  {
    hide IsHost;
    var s := Lower(input);
    DotEnds(s, h);
    if IsHost(accept, h) && (s == h || s == h + ".") {
      HostHasNoStar(accept, input, h);
      HostCharacters(accept, h);
    }
  }

  /** Decimal digits of a number. */
  function Digits(n: nat): string
    decreases n
  {
    (if n < 10 then "" else Digits(n / 10)) + ['0' + (n % 10) as char]
  }

  lemma {:induction false} DigitsDecimal(n: nat)
    ensures Digits(n) != [] && AllDigits(Digits(n)) && Decimal(Digits(n)) == n
  {
    var d := Digits(n);
    if n >= 10 { DigitsDecimal(n / 10); }
    assert d[..|d| - 1] == if n < 10 then "" else Digits(n / 10);
    assert d[|d| - 1] == '0' + (n % 10) as char;
  }

  lemma {:induction false} LeadingZeros(k: nat, s: string)
    requires AllDigits(s)
    ensures var t := seq(k, _ => '0') + s; AllDigits(t) && Decimal(t) == Decimal(s)
    decreases k, |s|
  {
    var zeros := seq(k, _ => '0');
    var t := zeros + s;
    if s != [] {
      LeadingZeros(k, s[..|s| - 1]);
      assert t[..|t| - 1] == zeros + s[..|s| - 1];
    } else if k > 0 {
      LeadingZeros(k - 1, []);
      assert t[..|t| - 1] == seq(k - 1, _ => '0') + [];
    }
  }

  /** A port is its decimal digits, with leading zeros or a plus sign if you like; anything over 65535 is refused. */
  lemma ParsesPort(n: nat, zeros: nat)
    ensures var text := seq(zeros, _ => '0') + Digits(n);
            && ParsePort(text) == (if n <= 65535 then Some(n) else None)
            && ParsePort("+" + text) == ParsePort(text)
  {
    var text := seq(zeros, _ => '0') + Digits(n);
    DigitsDecimal(n);
    LeadingZeros(zeros, Digits(n));
    assert IsDigit(text[0]);
    assert ("+" + text)[1..] == text;
  }

  lemma RefusesPort(text: string)
    requires text == "" || text == "+" || exists i :: 0 < i < |text| && !IsDigit(text[i])
    ensures ParsePort(text).None?
  {
    if i :| 0 < i < |text| && !IsDigit(text[i]) {
      assert !IsDigit(text[1..][i - 1]);
    }
  }

  // ----- authorities -----

  predicate IsPlainText(s: string) {
    s != [] && forall i :: 0 <= i < |s| ==> s[i] < 128 as char && s[i] != '@' && s[i] != '%'
  }

  /** The text `authority` names `d`: a host alone, on port 443, or a host and a port. */
  ghost predicate Names(f: Foreign, authority: string, d: Destination) {
    IsPlainText(authority) && d.port > 0 &&
    if ':' !in authority then NormalizeDns(f.accept, authority) == Some(d.host) && d.port == 443
    else exists host, port :: authority == host + ":" + port && ':' !in host && NormalizeDns(f.accept, host) == Some(d.host)
                              && ParsePort(port) == Some(d.port)
  }

  lemma SplitsAtColon(host: string, port: string)
    requires ':' !in host
    ensures SplitOnce(host + ":" + port, ':') == Some((host, port))
  {
    var s := host + ":" + port;
    assert s[|host|] == ':';
    assert forall k :: 0 <= k < |host| ==> s[k] == host[k];
    assert IndexOf(s, ':') == |host|;
    assert s[..|host|] == host && s[|host| + 1..] == port;
  }

  /** An authority is read as the destination that it names; everything else is refused. */
  lemma ParsesAuthority(f: Foreign, authority: string, d: Destination)
    ensures ParseAuthority(f, authority) == Ok(d) <==> Names(f, authority, d)
  {
    hide NormalizeDns; hide ParsePort; hide IndexOf;
    var split := SplitOnce(authority, ':');
    if split.Some? {
      var (host, port) := split.value;
      assert authority == host + ":" + port;
      if Names(f, authority, d) {
        var h, p :| authority == h + ":" + p && ':' !in h && NormalizeDns(f.accept, h) == Some(d.host) && ParsePort(p) == Some(d.port);
        SplitsAtColon(h, p);
      }
    }
  }

  lemma NamesOne(f: Foreign, authority: string, d: Destination, e: Destination)
    requires Names(f, authority, d) && Names(f, authority, e)
    ensures d == e
  {
    hide Names; hide ParseAuthority;
    ParsesAuthority(f, authority, d);
    ParsesAuthority(f, authority, e);
  }

  // ----- CONNECT -----

  ghost predicate AllName(f: Foreign, authorities: seq<string>, d: Destination) {
    forall k :: 0 <= k < |authorities| ==> Names(f, authorities[k], d)
  }

  /** What the rule list says about a destination. */
  predicate Grants(config: SessionConfig, d: Destination, mode: RuleMode) {
    var r := Scan(config.rules, d.host);
    if r.Some? then d.port in r.value.ports && mode == r.value.mode
    else config.unmatched == TunnelUnmatched && d.port == 443 && mode == Tunnel
  }

  /** A CONNECT is answered with a mode and a destination exactly if its texts name it and the rules grant it. */
  lemma ConnectsExactly(
    f: Foreign, config: SessionConfig, seed: Seed, authority: string, hosts: seq<string>, mode: RuleMode, d: Destination)
    ensures AuthorizeConnect(f, Compile(f, config, seed), authority, hosts) == Ok((mode, d)) <==>
            Names(f, authority, d) && |hosts| <= 1 && AllName(f, hosts, d) && Grants(config, d, mode)
  {
    hide ParseAuthority; hide Names; hide CompileRules;
    CompileAgreesWithScan(f, config, seed, config.rules, d.host);
    ParsesAuthority(f, authority, d);
    if hosts != [] { ParsesAuthority(f, hosts[0], d); }
  }

  /** TLS is intercepted exactly if the authority names a destination with an intercept rule and so does the client. */
  lemma InterceptsExactly(f: Foreign, config: SessionConfig, seed: Seed, authority: string, serverName: Option<string>)
    ensures PermitsInterception(f, Compile(f, config, seed), authority, serverName) <==>
            exists d :: Names(f, authority, d) && Grants(config, d, Intercept)
                        && serverName.Some? && NormalizeDns(f.accept, serverName.value) == Some(d.host)
  {
    hide AuthorizeConnect; hide Names; hide NormalizeDns; hide Compile; hide Grants;
    var policy := Compile(f, config, seed);
    var a := AuthorizeConnect(f, policy, authority, []);
    if a.Ok? { ConnectsExactly(f, config, seed, authority, [], a.value.0, a.value.1); }
    if d :| Names(f, authority, d) && Grants(config, d, Intercept)
            && serverName.Some? && NormalizeDns(f.accept, serverName.value) == Some(d.host) {
      ConnectsExactly(f, config, seed, authority, [], Intercept, d);
    }
  }

  // ----- decrypted requests -----

  ghost predicate MatchesRule(r: HostRule, path: string) {
    r.paths == [] || exists c, k :: Canonical(path) == Ok(c) && 0 <= k < |r.paths| && MatchesPattern(r.paths[k], c)
  }

  /** A request is aimed at `d`: not a CONNECT, https if anything, and every authority it gives, at least one, names `d`. */
  ghost predicate AimsAt(f: Foreign, facts: Facts, connect: string, d: Destination) {
    && Lower(facts.verb) != "connect" && (facts.scheme.Some? ==> Lower(facts.scheme.value) == "https")
    && Names(f, connect, d) && |facts.hosts| <= 1 && AllName(f, facts.hosts, d)
    && (facts.authority.Some? ==> Names(f, facts.authority.value, d)) && (facts.authority.Some? || facts.hosts != [])
  }

  ghost predicate Allows(f: Foreign, config: SessionConfig, facts: Facts, connect: string, d: Destination, r: HostRule) {
    && AimsAt(f, facts, connect, d) && Scan(config.rules, d.host) == Some(r) && d.port in r.ports
    && MatchesRule(r, if facts.path == [] then "/" else facts.path)
  }

  lemma LowerWords()
    ensures Lower("CONNECT") == "connect" && Lower("https") == "https"
  {
  }

  lemma AgreesExactly(f: Foreign, facts: Facts, connect: string, d: Destination)
    ensures AgreedDestination(f, facts, connect) == Ok(d) <==> AimsAt(f, facts, connect, d)
  {
    hide ParseAuthority; hide Names; hide Lower;
    LowerWords();
    ParsesAuthority(f, connect, d);
    if facts.hosts != [] { ParsesAuthority(f, facts.hosts[0], d); }
    if facts.authority.Some? { ParsesAuthority(f, facts.authority.value, d); }
  }

  lemma PathAllowed(r: HostRule, path: string)
    ensures var a := AuthorizedPath(r.paths, path);
            var text := if path == [] then "/" else path;
            && (a.Ok? <==> MatchesRule(r, text))
            && (a.Ok? ==> a.value == if r.paths == [] then None else Some(Canonical(text).value))
  {
    hide Canonical; hide MatchesPattern;
  }

  /**
   A decrypted request is allowed exactly if it is aimed at the CONNECT destination, the rule for that host lists the
   port, and its canonical path matches a pattern of the rule, if it has any. It then gets the rule's credentials and
   the canonical path.
   */
  lemma RequestAllowed(f: Foreign, config: SessionConfig, seed: Seed, facts: Facts, connect: string)
    ensures AuthorizeIntercepted(f, Compile(f, config, seed), facts, connect).Ok? <==>
            exists d, r :: Allows(f, config, facts, connect, d, r)
    ensures forall d, r :: Allows(f, config, facts, connect, d, r) ==>
                             AuthorizeIntercepted(f, Compile(f, config, seed), facts, connect) ==
                             Ok((CompileInjections(f, config, seed, r.inject),
                                 if r.paths == [] then None else Some(Canonical(if facts.path == [] then "/" else facts.path).value)))
  {
    hide AimsAt; hide AgreedDestination; hide AuthorizedPath; hide MatchesRule; hide CompileRules; hide Canonical;
    hide CompileInjections;
    var a := AgreedDestination(f, facts, connect);
    forall d ensures a == Ok(d) <==> AimsAt(f, facts, connect, d) { AgreesExactly(f, facts, connect, d); }
    if a.Ok? {
      CompileAgreesWithScan(f, config, seed, config.rules, a.value.host);
      var r := Scan(config.rules, a.value.host);
      if r.Some? {
        PathAllowed(r.value, facts.path);
        if a.value.port in r.value.ports && AuthorizedPath(r.value.paths, facts.path).Ok? {
          assert Allows(f, config, facts, connect, a.value, r.value);
        }
      }
    }
  }
}
