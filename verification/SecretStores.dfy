/** Which secrets a session resolves (src/secrets.rs:33-111) and that they are enough. */
module SecretStores {
  import opened Basics
  import opened Config
  import opened Text
  import opened Base64
  import opened Policy
  import opened Credentials

  datatype StoreError = NotEntitled | Unavailable

  /** The directory test and the reading of one secret file are system calls, given by their outcome. */
  datatype SecretStore = SecretStore(allowed: set<string>, usable: bool, read: string -> Option<string>)

  function Requested(config: SessionConfig): set<string> {
    set r, i | r in config.rules && i in r.inject && EffectiveMode(config, i.secret) != Disabled :: i.secret
  }

  /** Resolves exactly the secrets of injections that are not disabled, or fails without reading past a failure. */
  method Resolve(store: SecretStore, config: SessionConfig) returns (r: Result<Secrets, StoreError>)
    ensures r == Err(NotEntitled) <==> !(Requested(config) <= store.allowed)
    ensures r.Ok? <==>
            && Requested(config) <= store.allowed
            && (Requested(config) == {} || store.usable)
            && (forall name :: name in Requested(config) ==> store.read(name).Some?)
    ensures r.Ok? ==> r.value.Keys == Requested(config)
                      && forall name :: name in r.value ==> Some(r.value[name]) == store.read(name)
  {
    var requested := Requested(config);
    if !(requested <= store.allowed) { return Err(NotEntitled); }
    if requested == {} { return Ok(map[]); }
    if !store.usable { return Err(Unavailable); }
    var resolved: Secrets := map[];
    var left := requested;
    while left != {}
      invariant left <= requested && resolved.Keys == requested - left
      invariant forall name :: name in resolved ==> Some(resolved[name]) == store.read(name)
    {
      var name :| name in left;
      var value := store.read(name);
      if value.None? { return Err(Unavailable); }
      resolved := resolved[name := value.value];
      left := left - {name};
    }
    return Ok(resolved);
  }

  /** has_same_values: as many entries, and every entry of one found in the other. */
  predicate HasSameValues(a: Secrets, b: Secrets) {
    |a| == |b| && forall name :: name in a ==> name in b && a[name] == b[name]
  }

  lemma SubsetOfSameSize<T>(a: set<T>, b: set<T>)
    requires a <= b && |a| == |b|
    ensures a == b
  {
    assert |b - a| == |b| - |a|;
    assert b == a + (b - a);
  }

  lemma SameValuesIsEquality(a: Secrets, b: Secrets)
    ensures HasSameValues(a, b) <==> a == b
  {
    if HasSameValues(a, b) {
      assert |a.Keys| == |a| && |b.Keys| == |b|;
      SubsetOfSameSize(a.Keys, b.Keys);
    }
  }

  // ----- resolved secrets are enough -----

  /** A rule's injection as validation leaves it. */
  predicate InjectionOk(i: HeaderInjection) { IsToken(i.header) && UsernameOk(i) }

  /** read_secret returns only text without control characters. */
  predicate SecretOk(s: string) { forall i :: 0 <= i < |s| ==> s[i] >= ' ' && s[i] != 127 as char }

  lemma SubstitutedIsHeaderValue(value: string, i: HeaderInjection, fake: string, actual: string)
    requires IsVisible(value) && SecretOk(actual)
    ensures var r := SubstituteValue(value, i, fake, actual); r.Some? ==> IsHeaderValue(r.value)
  {
    hide Encode; hide Decode;
    if i.format != Raw && SplitOnce(value, ' ').Some? {
      var scheme := SplitOnce(value, ' ').value.0;
      assert forall k :: 0 <= k < |scheme| ==> scheme[k] == value[k];
      assert IsHeaderValue(scheme + " ");
      if i.format == BasicPassword && i.username.Some? { EncodeIsPrintable(Basic(i.username.value, actual)); }
    }
  }

  /** A credential of a valid rule whose secret is resolved fails only on an oversized header name. */
  lemma RewriteFails(h: Headers, c: Credential, secrets: Secrets)
    requires InjectionOk(c.injection) && (c.mode != Disabled ==> c.injection.secret in secrets)
    requires forall name :: name in secrets ==> SecretOk(secrets[name])
    ensures RewriteFor(h, c, secrets).Err? <==> c.mode != Disabled && |c.injection.header| > MAX_HEADER_NAME
  {
    var i := c.injection;
    if c.mode != Disabled && HeaderName(i.header).Some? {
      var secret := secrets[i.secret];
      FormatIsCarrying(i, secret);
      assert IsHeaderValue(secret);
      var values := Values(h, HeaderName(i.header).value);
      if c.fake.Some? && |values| == 1 && IsVisible(values[0]) {
        SubstitutedIsHeaderValue(values[0], i, c.fake.value, secret);
      }
      hide SubstituteValue; hide FormatInjected; hide HeaderName; hide IsHeaderValue;
    }
  }

  /**
   With the secrets that `Resolve` returns, the lookup never misses for a credential of the compiled policy, and
   the rewrite fails only if the rule names a header too long for an HTTP header name.
   */
  lemma ResolvedIsEnough(
    f: Foreign, config: SessionConfig, seed: Seed, rule: HostRule, secrets: Secrets, h: Headers)
    requires rule in config.rules && secrets.Keys == Requested(config)
    requires forall k :: 0 <= k < |rule.inject| ==> InjectionOk(rule.inject[k])
    requires forall name :: name in secrets ==> SecretOk(secrets[name])
    ensures forall k :: 0 <= k < |rule.inject| && EffectiveMode(config, rule.inject[k].secret) != Disabled ==>
                          rule.inject[k].secret in secrets
    ensures Applied(h, CompileInjections(f, config, seed, rule.inject), secrets).Err? <==>
            exists k :: 0 <= k < |rule.inject| && EffectiveMode(config, rule.inject[k].secret) != Disabled
                        && |rule.inject[k].header| > MAX_HEADER_NAME
  {
    hide EffectiveMode; hide RewriteFor;
    var credentials := CompileInjections(f, config, seed, rule.inject);
    forall k | 0 <= k < |rule.inject|
      ensures EffectiveMode(config, rule.inject[k].secret) != Disabled ==> rule.inject[k].secret in secrets
      ensures RewriteFor(h, credentials[k], secrets).Err? <==>
              EffectiveMode(config, rule.inject[k].secret) != Disabled && |rule.inject[k].header| > MAX_HEADER_NAME
    {
      assert rule.inject[k] in rule.inject;
      RewriteFails(h, credentials[k], secrets);
    }
  }
}
