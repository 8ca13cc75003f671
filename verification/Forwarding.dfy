/** Which decrypted requests are forwarded, and with which headers (src/proxy_runtime/rama/http.rs:65-228). */
module Forwarding {
  import opened Basics
  import opened Config
  import opened Text
  import opened Paths
  import opened Policy
  import opened Credentials
  import opened Effective
  import opened Sorting
  import opened Serving
  import opened Authorization

  // ----- credentials, mode by mode -----

  /** The mode set for the secret itself comes first, then the session's default, then injection. */
  lemma ModePrecedence(config: SessionConfig, secret: string, mode: CredentialMode)
    ensures EffectiveMode(config.(modes := config.modes[secret := mode]), secret) == mode
    ensures secret !in config.modes ==> EffectiveMode(config.(defaultMode := Some(mode)), secret) == mode
    ensures secret !in config.modes ==> EffectiveMode(config.(defaultMode := None), secret) == Inject
  {
  }

  /** The one value that the request has for the credential's header, if it has one and it is readable. */
  function OnlyValue(h: Headers, name: string): Option<string> {
    var values := Values(h, name);
    if |values| == 1 && IsVisible(values[0]) then Some(values[0]) else None
  }

  ghost predicate Carries(value: string, i: HeaderInjection, secret: string, scheme: string)
    requires UsernameOk(i)
  {
    EqualFold(scheme, SchemeOf(i.format)) && value == Carrying(i, scheme, secret)
  }

  /** An injected credential sets its header to the formatted secret, whatever the request had there. */
  lemma InjectSets(f: Foreign, config: SessionConfig, seed: Seed, h: Headers, i: HeaderInjection, secrets: Secrets)
    requires EffectiveMode(config, i.secret) == Inject
    requires UsernameOk(i) && HeaderName(i.header).Some? && i.secret in secrets && IsHeaderValue(secrets[i.secret])
    ensures RewriteFor(h, CompileInjection(f, config, seed, i), secrets)
         == Ok(Some((Lower(i.header), Carrying(i, SchemeOf(i.format), secrets[i.secret]))))
  {
    hide FormatInjected; hide Carrying; hide IsHeaderValue; hide EffectiveMode;
    FormatIsCarrying(i, secrets[i.secret]);
  }

  /**
   A substituted credential replaces the session's fake secret where the request's only value carries it, and else
   nothing.
   */
  lemma SubstituteSets(
    f: Foreign, config: SessionConfig, seed: Seed, h: Headers, i: HeaderInjection, secrets: Secrets, v: string)
    requires EffectiveMode(config, i.secret) == Substitute && UsesBytes(i, f.fake(seed, i.secret))
    requires UsernameOk(i) && HeaderName(i.header).Some? && i.secret in secrets
    ensures var r, fake := RewriteFor(h, CompileInjection(f, config, seed, i), secrets), f.fake(seed, i.secret);
            var held := OnlyValue(h, Lower(i.header));
            && (r == Ok(None) <==> held.None? || forall scheme :: !Carries(held.value, i, fake, scheme))
            && (r == Ok(Some((Lower(i.header), v))) <==>
                && held.Some? && IsHeaderValue(v)
                && exists scheme :: Carries(held.value, i, fake, scheme) && v == Carrying(i, scheme, secrets[i.secret]))
  {
    hide SubstituteValue; hide Carrying; hide IsHeaderValue; hide IsVisible; hide EqualFold; hide EffectiveMode;
    var held, fake := OnlyValue(h, Lower(i.header)), f.fake(seed, i.secret);
    if held.Some? {
      var secret := secrets[i.secret];
      SubstitutesExactly(held.value, i, fake, secret);
      var out := SubstituteValue(held.value, i, fake, secret);
      forall scheme | Carries(held.value, i, fake, scheme) ensures out == Some(Carrying(i, scheme, secret)) {}
      if out.Some? {
        var scheme :| EqualFold(scheme, SchemeOf(i.format)) && held.value == Carrying(i, scheme, fake);
        assert Carries(held.value, i, fake, scheme);
      }
    }
  }

  /** A disabled credential never touches a request. */
  lemma DisabledSets(f: Foreign, config: SessionConfig, seed: Seed, h: Headers, i: HeaderInjection, secrets: Secrets)
    requires EffectiveMode(config, i.secret) == Disabled
    ensures RewriteFor(h, CompileInjection(f, config, seed, i), secrets) == Ok(None)
  {
  }

  // ----- upgrades -----

  predicate IsBlank(s: string) { forall i :: 0 <= i < |s| ==> s[i] in " \t" }

  lemma {:induction false} TrimmedLeft(s: string)
    ensures exists blank :: IsBlank(blank) && s == blank + TrimLeft(s)
    ensures TrimLeft(s) == [] || TrimLeft(s)[0] !in " \t"
  {
    if s != [] && s[0] in " \t" {
      TrimmedLeft(s[1..]);
      var blank :| IsBlank(blank) && s[1..] == blank + TrimLeft(s[1..]);
      assert IsBlank([s[0]] + blank) && s == [s[0]] + blank + TrimLeft(s);
    } else {
      assert IsBlank("") && s == "" + TrimLeft(s);
    }
  }

  lemma {:induction false} TrimmedRight(s: string)
    ensures exists blank :: IsBlank(blank) && s == TrimRight(s) + blank
    ensures TrimRight(s) == [] || TrimRight(s)[|TrimRight(s)| - 1] !in " \t"
  {
    if s != [] && s[|s| - 1] in " \t" {
      var front := s[..|s| - 1];
      TrimmedRight(front);
      var blank :| IsBlank(blank) && front == TrimRight(front) + blank;
      assert IsBlank(blank + [s[|s| - 1]]) && s == TrimRight(s) + (blank + [s[|s| - 1]]);
    } else {
      assert IsBlank("") && s == TrimRight(s) + "";
    }
  }

  lemma {:induction false} BlankLeft(blank: string, s: string)
    requires IsBlank(blank) && (s == [] || s[0] !in " \t")
    ensures TrimLeft(blank + s) == s
  {
    if blank == [] { assert blank + s == s; }
    else { BlankLeft(blank[1..], s); assert (blank + s)[1..] == blank[1..] + s; }
  }

  lemma {:induction false} BlankRight(s: string, blank: string)
    requires IsBlank(blank) && s != [] && s[|s| - 1] !in " \t"
    ensures TrimRight(s + blank) == s
  {
    if blank == [] { assert s + blank == s; }
    else {
      var all, front := s + blank, blank[..|blank| - 1];
      BlankRight(s, front);
      assert all[..|all| - 1] == s + front && all[|all| - 1] == blank[|blank| - 1];
    }
  }

  /** A piece is the word, up to case, between blanks. */
  ghost predicate IsWordIn(piece: string, word: string) {
    exists left, w, right :: IsBlank(left) && IsBlank(right) && EqualFold(w, word) && piece == left + w + right
  }

  lemma FirstAndLast(w: string, word: string)
    requires EqualFold(w, word) && word == "upgrade"
    ensures w != [] && w[0] !in " \t" && w[|w| - 1] !in " \t"
  {
    assert |w| == |word| && LowerChar(w[0]) == Lower(word)[0] && LowerChar(w[6]) == Lower(word)[6];
  }

  lemma TrimsToWord(piece: string)
    ensures EqualFold(TrimLeft(TrimRight(piece)), "upgrade") <==> IsWordIn(piece, "upgrade")
  {
    hide EqualFold; hide TrimLeft; hide TrimRight; hide IsBlank;
    if IsWordIn(piece, "upgrade") {
      var left, w, right :| IsBlank(left) && IsBlank(right) && EqualFold(w, "upgrade") && piece == left + w + right;
      FirstAndLast(w, "upgrade");
      assert (left + w)[|left + w| - 1] == w[|w| - 1];
      BlankRight(left + w, right);
      BlankLeft(left, w);
    }
    if EqualFold(TrimLeft(TrimRight(piece)), "upgrade") {
      TrimmedRight(piece);
      TrimmedLeft(TrimRight(piece));
      var right :| IsBlank(right) && piece == TrimRight(piece) + right;
      var left :| IsBlank(left) && TrimRight(piece) == left + TrimLeft(TrimRight(piece));
      assert piece == left + TrimLeft(TrimRight(piece)) + right;
      assert IsWordIn(piece, "upgrade");
    }
  }

  /** A readable list of words between commas that names the upgrade. */
  ghost predicate NamesInList(value: string) {
    IsVisible(value) && exists j :: 0 <= j < |Split(value, ',')| && IsWordIn(Split(value, ',')[j], "upgrade")
  }

  lemma ListNames(value: string)
    ensures NamesUpgrade(value) <==> NamesInList(value)
  {
    hide EqualFold; hide TrimLeft; hide TrimRight; hide IsVisible; hide IsWordIn; hide Split;
    var pieces := Split(value, ',');
    forall k | 0 <= k < |pieces| ensures EqualFold(TrimLeft(TrimRight(pieces[k])), "upgrade") <==> IsWordIn(pieces[k], "upgrade") {
      TrimsToWord(pieces[k]);
    }
  }

  /** A request asks for an upgrade exactly if it has the header or names it in a readable Connection header. */
  lemma AsksUpgrade(h: Headers)
    ensures HasUpgrade(h) <==>
            || "upgrade" in h
            || exists k :: 0 <= k < |Values(h, "connection")| && NamesInList(Values(h, "connection")[k])
  {
    hide EqualFold; hide TrimLeft; hide TrimRight; hide IsVisible; hide IsWordIn; hide Split;
    forall k | 0 <= k < |Values(h, "connection")|
      ensures NamesUpgrade(Values(h, "connection")[k]) <==> NamesInList(Values(h, "connection")[k])
    {
      ListNames(Values(h, "connection")[k]);
    }
    hide NamesUpgrade; hide NamesInList;
  }

  // ----- the whole request -----

  predicate UsesSecrets(config: SessionConfig, r: HostRule) {
    exists k :: 0 <= k < |r.inject| && EffectiveMode(config, r.inject[k].secret) != Disabled
  }

  lemma UsesExactly(f: Foreign, config: SessionConfig, seed: Seed, r: HostRule)
    ensures UsesCredentials(CompileInjections(f, config, seed, r.inject)) <==> UsesSecrets(config, r)
  {
    hide EffectiveMode;
    var all := CompileInjections(f, config, seed, r.inject);
    forall k | 0 <= k < |all| ensures all[k].mode == EffectiveMode(config, r.inject[k].secret) {}
    if UsesSecrets(config, r) {
      var k :| 0 <= k < |r.inject| && EffectiveMode(config, r.inject[k].secret) != Disabled;
      assert all[k].mode != Disabled;
    }
  }

  /** The forwarded request: canonical path if the rule has patterns, and the headers that its credentials set. */
  ghost predicate Forwards(
    f: Foreign, config: SessionConfig, seed: Seed, secrets: Secrets, m: Message, r: HostRule, out: Message)
  {
    var credentials := CompileInjections(f, config, seed, r.inject);
    var facts := FactsOf(m);
    && !(UsesSecrets(config, r) && HasUpgrade(m.headers)) && AllRewrite(m.headers, credentials, secrets)
    && out == m.(path := out.path, headers := out.headers)
    && (if r.paths == [] then out.path == m.path
        else out.path.Some? && Canonical(if facts.path == [] then "/" else facts.path) == Ok(out.path.value))
    && forall name ::
         && (forall v :: SetBy(m.headers, credentials, secrets, name, v) ==> Entry(out.headers, name) == Some([v]))
         && ((forall v :: !SetBy(m.headers, credentials, secrets, name, v)) ==> Entry(out.headers, name) == Entry(m.headers, name))
  }

  lemma SameHeaders(a: Headers, b: Headers)
    requires forall name :: Entry(a, name) == Entry(b, name)
    ensures a == b
  {
    forall name ensures (name in a <==> name in b) && (name in a ==> a[name] == b[name]) {
      assert Entry(a, name) == Entry(b, name);
    }
  }

  lemma OverlaidOnly(h: Headers, credentials: seq<Credential>, secrets: Secrets, out: Headers)
    requires DistinctHeaders(credentials)
    ensures out == Overlay(h, credentials, secrets) <==>
            forall name ::
              && (forall v :: SetBy(h, credentials, secrets, name, v) ==> Entry(out, name) == Some([v]))
              && ((forall v :: !SetBy(h, credentials, secrets, name, v)) ==> Entry(out, name) == Entry(h, name))
  {
    hide Overlay; hide SetBy; hide DistinctHeaders;
    var all := Overlay(h, credentials, secrets);
    forall name
      ensures (forall v :: SetBy(h, credentials, secrets, name, v) ==> Entry(all, name) == Some([v]))
      ensures (forall v :: !SetBy(h, credentials, secrets, name, v)) ==> Entry(all, name) == Entry(h, name)
    {
      OverlayAt(h, credentials, secrets, name);
    }
    if forall name ::
         && (forall v :: SetBy(h, credentials, secrets, name, v) ==> Entry(out, name) == Some([v]))
         && ((forall v :: !SetBy(h, credentials, secrets, name, v)) ==> Entry(out, name) == Entry(h, name))
    {
      forall name ensures Entry(out, name) == Entry(all, name) {
        if v :| SetBy(h, credentials, secrets, name, v) {}
      }
      SameHeaders(out, all);
    }
  }

  /**
   A request is forwarded, as `out`, exactly if its Host values are readable, the session's rules allow it, it asks for
   no upgrade where a secret is used, and every credential of the rule can be applied; `out` differs from it only in a
   canonical path and in the headers that the credentials set.
   */
  lemma ForwardsExactly(
    f: Foreign, config: SessionConfig, seed: Seed, secrets: Secrets, connect: string, m: Message, out: Message)
    requires NoDuplicates(config.rules)
    ensures Serve(f, Compile(f, config, seed), secrets, connect, m) == Ok(out) <==>
            && HostsReadable(m.headers)
            && exists d, r :: Allows(f, config, FactsOf(m), connect, d, r) && Forwards(f, config, seed, secrets, m, r, out)
  {
    hide Compile; hide AuthorizeIntercepted; hide Allows; hide HostsReadable; hide NoDuplicates; hide HasUpgrade; hide Forwards;
    hide FactsOf; hide CompileInjections; hide Canonical;
    var a := AuthorizeIntercepted(f, Compile(f, config, seed), FactsOf(m), connect);
    RequestAllowed(f, config, seed, FactsOf(m), connect);
    forall d, r | Allows(f, config, FactsOf(m), connect, d, r)
      ensures HostsReadable(m.headers) ==>
                (Serve(f, Compile(f, config, seed), secrets, connect, m) == Ok(out) <==> Forwards(f, config, seed, secrets, m, r, out))
    {
      AllowedRule(f, config, FactsOf(m), connect, d, r);
      RuleForwards(f, config, seed, secrets, m, r, out, a);
    }
  }

  lemma AllowedRule(f: Foreign, config: SessionConfig, facts: Facts, connect: string, d: Destination, r: HostRule)
    requires NoDuplicates(config.rules) && Allows(f, config, facts, connect, d, r)
    ensures DistinctBy(HeaderKey, r.inject)
    ensures r.paths == [] || Canonical(if facts.path == [] then "/" else facts.path).Ok?
  {
    hide AimsAt;
    var k :| 0 <= k < |config.rules| && config.rules[k] == r;
  }

  lemma RuleForwards(
    f: Foreign, config: SessionConfig, seed: Seed, secrets: Secrets, m: Message, r: HostRule, out: Message,
    a: Result<(seq<Credential>, Option<string>), AuthorizationError>)
    requires DistinctBy(HeaderKey, r.inject)
    requires a.Ok? && a.value.0 == CompileInjections(f, config, seed, r.inject)
    requires var text := FactsOf(m).path;
             if r.paths == [] then a.value.1 == None
             else a.value.1.Some? && Canonical(if text == [] then "/" else text) == Ok(a.value.1.value)
    ensures var (credentials, path) := a.value;
            (!(UsesCredentials(credentials) && HasUpgrade(m.headers)) && Applied(m.headers, credentials, secrets).Ok?
             && out == m.(path := if path.Some? then path else m.path, headers := Applied(m.headers, credentials, secrets).value))
            <==> Forwards(f, config, seed, secrets, m, r, out)
  {
    hide HasUpgrade; hide FactsOf; hide CompileInjections; hide Canonical; hide Overlay; hide SetBy; hide AllRewrite; hide UsesCredentials;
    hide UsesSecrets; hide DistinctHeaders;
    UsesExactly(f, config, seed, r);
    CompiledDistinct(f, config, seed, r);
    OverlaidOnly(m.headers, a.value.0, secrets, out.headers);
  }
}
