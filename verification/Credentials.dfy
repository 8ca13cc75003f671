/** Header credentials: injection and substitution (src/proxy_runtime/rama/http.rs:133-228, src/secrets.rs:33-111). */
module Credentials {
  import opened Basics
  import opened Config
  import opened Text
  import opened Base64
  import opened Policy

  /** Header values by lower-case name, in order. */
  type Headers = map<string, seq<string>>

  function Values(h: Headers, name: string): seq<string> { if name in h then h[name] else [] }

  function Entry(h: Headers, name: string): Option<seq<string>> { if name in h then Some(h[name]) else None }

  const MAX_HEADER_NAME: nat := 65535

  predicate IsTokenChar(c: char) { IsAlphanumeric(c) || c in "!#$%&'*+-.^_`|~" }

  predicate IsToken(s: string) { s != [] && forall i :: 0 <= i < |s| ==> IsTokenChar(s[i]) }

  /** `HeaderName::try_from`: lower-cases a token. */
  function HeaderName(s: string): Option<string> {
    if IsToken(s) && |s| <= MAX_HEADER_NAME then Some(Lower(s)) else None
  }

  /** `HeaderValue::try_from`. */
  predicate IsHeaderValue(v: string) {
    forall i :: 0 <= i < |v| ==> v[i] == '\t' || (v[i] >= ' ' && v[i] != 127 as char)
  }

  /** `HeaderValue::to_str`. */
  predicate IsVisible(v: string) { forall i :: 0 <= i < |v| ==> v[i] == '\t' || ' ' <= v[i] <= '~' }

  // ----- one header -----

  function Basic(username: string, password: string): string { username + ":" + password }

  predicate UsesBytes(i: HeaderInjection, secret: string) {
    IsBytes(secret) && (i.username.Some? ==> IsBytes(i.username.value))
  }

  function FormatInjected(i: HeaderInjection, secret: string): Option<string>
  {
    match i.format
    case Raw => Some(secret)
    case Bearer => Some("Bearer " + secret)
    case BasicPassword =>
      if i.username.None? then None else Some("Basic " + Encode(Basic(i.username.value, secret)))
  }

  /** The replacement for one header value, if the value carries the fake credential. */
  function SubstituteValue(value: string, i: HeaderInjection, fake: string, actual: string): Option<string>
  {
    match i.format
    case Raw => if value == fake then Some(actual) else None
    case Bearer =>
      var split := SplitOnce(value, ' ');
      if split.None? || !EqualFold(split.value.0, "Bearer") || split.value.1 != fake then None
      else Some(split.value.0 + " " + actual)
    case BasicPassword =>
      var split := SplitOnce(value, ' ');
      if split.None? || !EqualFold(split.value.0, "Basic") || i.username.None? then None
      else
        var decoded := Decode(split.value.1);
        if decoded.None? then None
        else
          var parts := SplitOnce(decoded.value, ':');
          if parts.None? || parts.value.0 != i.username.value || parts.value.1 != fake then None
          else Some(split.value.0 + " " + Encode(Basic(parts.value.0, actual)))
  }

  function Substituted(h: Headers, i: HeaderInjection, fake: string, actual: string): Option<string>
  {
    var name := HeaderName(i.header);
    if name.None? then None
    else
      var values := Values(h, name.value);
      if |values| == 1 && IsVisible(values[0]) then SubstituteValue(values[0], i, fake, actual) else None
  }

  /** The scheme word of a format; `Raw` has none. */
  function SchemeOf(f: InjectionFormat): string {
    match f case Raw => "" case Bearer => "Bearer" case BasicPassword => "Basic"
  }

  /** A value that carries `secret` in the injection's format, its scheme word spelled as `scheme`. */
  function Carrying(i: HeaderInjection, scheme: string, secret: string): string
    requires i.format == BasicPassword ==> i.username.Some?
  {
    match i.format
    case Raw => secret
    case Bearer => scheme + " " + secret
    case BasicPassword => scheme + " " + Encode(Basic(i.username.value, secret))
  }

  /** The username that validation promises (crates/baffle-client/src/policy.rs:311-330 and 543-551). */
  predicate UsernameOk(i: HeaderInjection) {
    if i.format == BasicPassword then i.username.Some? && ':' !in i.username.value else i.username.None?
  }

  lemma SplitOnceAt(a: string, c: char, b: string)
    requires c !in a
    ensures SplitOnce(a + [c] + b, c) == Some((a, b))
  {
    var s := a + [c] + b;
    assert s[|a|] == c;
    var n := IndexOf(s, c);
    assert forall k :: 0 <= k < |a| ==> s[k] == a[k] != c;
    assert n == |a|;
    assert s[..n] == a && s[n + 1..] == b;
  }

  lemma SchemeHasNoSpace(scheme: string, word: string)
    requires EqualFold(scheme, word) && word in ["Bearer", "Basic"]
    ensures ' ' !in scheme
  {
    assert forall i :: 0 <= i < |word| ==> Lower(word)[i] != ' ';
    assert forall i :: 0 <= i < |scheme| ==> Lower(scheme)[i] == LowerChar(scheme[i]);
  }

  /**
   A value is rewritten exactly when it carries the fake credential, under any spelling of the scheme word; the
   result carries the actual one under the same spelling.
   */
  lemma SubstitutesExactly(value: string, i: HeaderInjection, fake: string, actual: string)
    requires UsesBytes(i, fake) && UsernameOk(i)
    ensures SubstituteValue(value, i, fake, actual).Some? <==>
            exists scheme :: EqualFold(scheme, SchemeOf(i.format)) && value == Carrying(i, scheme, fake)
    ensures forall scheme :: EqualFold(scheme, SchemeOf(i.format)) && value == Carrying(i, scheme, fake) ==>
                               SubstituteValue(value, i, fake, actual) == Some(Carrying(i, scheme, actual))
  {
    forall scheme | EqualFold(scheme, SchemeOf(i.format)) && value == Carrying(i, scheme, fake)
      ensures SubstituteValue(value, i, fake, actual) == Some(Carrying(i, scheme, actual))
    {
      SubstituteCarrying(i, scheme, fake, actual);
    }
    if SubstituteValue(value, i, fake, actual).Some? {
      var scheme := CarryingSubstituted(value, i, fake, actual);
      assert EqualFold(scheme, SchemeOf(i.format)) && value == Carrying(i, scheme, fake);
    }
  }

  lemma SubstituteCarrying(i: HeaderInjection, scheme: string, fake: string, actual: string)
    requires UsesBytes(i, fake) && UsernameOk(i) && EqualFold(scheme, SchemeOf(i.format))
    ensures SubstituteValue(Carrying(i, scheme, fake), i, fake, actual) == Some(Carrying(i, scheme, actual))
  {
    hide Encode; hide Decode; hide IndexOf; hide SplitOnce; hide Lower;
    match i.format
    case Raw =>
    case Bearer =>
      SchemeHasNoSpace(scheme, "Bearer");
      SplitOnceAt(scheme, ' ', fake);
    case BasicPassword =>
      var plain := Basic(i.username.value, fake);
      SchemeHasNoSpace(scheme, "Basic");
      SplitOnceAt(scheme, ' ', Encode(plain));
      DecodeEncode(plain);
      SplitOnceAt(i.username.value, ':', fake);
  }

  lemma CarryingSubstituted(value: string, i: HeaderInjection, fake: string, actual: string) returns (scheme: string)
    requires UsesBytes(i, fake) && UsernameOk(i)
    requires SubstituteValue(value, i, fake, actual).Some?
    ensures EqualFold(scheme, SchemeOf(i.format)) && value == Carrying(i, scheme, fake)
  {
    hide Encode; hide Decode; hide IndexOf; hide SplitOnce;
    match i.format
    case Raw => scheme := "";
    case Bearer => scheme := SplitOnce(value, ' ').value.0;
    case BasicPassword =>
      var split := SplitOnce(value, ' ').value;
      scheme := split.0;
      EncodeDecode(split.1);
  }

  /** Substituting in a header formatted with the fake value gives the header that injection would produce. */
  lemma SubstituteIsInject(h: Headers, i: HeaderInjection, fake: string, actual: string)
    requires UsesBytes(i, fake) && UsernameOk(i) && IsVisible(fake)
    requires HeaderName(i.header).Some? && Values(h, HeaderName(i.header).value) == [FormatInjected(i, fake).value]
    ensures Substituted(h, i, fake, actual) == FormatInjected(i, actual)
  {
    var scheme := SchemeOf(i.format);
    SubstituteCarrying(i, scheme, fake, actual);
    FormatIsCarrying(i, fake);
    FormatIsCarrying(i, actual);
    hide FormatInjected; hide Carrying; hide SubstituteValue; hide HeaderName;
  }

  lemma FormatIsCarrying(i: HeaderInjection, secret: string)
    requires UsernameOk(i)
    ensures FormatInjected(i, secret) == Some(Carrying(i, SchemeOf(i.format), secret))
    ensures IsVisible(secret) ==> IsVisible(FormatInjected(i, secret).value)
    ensures IsHeaderValue(secret) ==> IsHeaderValue(FormatInjected(i, secret).value)
  {
    if i.format == BasicPassword { EncodeIsPrintable(Basic(i.username.value, secret)); }
    hide Encode;
    assert "Bearer " == "Bearer" + " " && "Basic " == "Basic" + " ";
  }

  // ----- all headers of a request -----

  type Rewrite = Result<Option<(string, string)>, ()>

  /** The header that a credential sets, if any; an error denies the request. */
  function RewriteFor(h: Headers, c: Credential, secrets: Secrets): Rewrite {
    if c.mode == Disabled then Ok(None)
    else
      var name := HeaderName(c.injection.header);
      if name.None? || c.injection.secret !in secrets then Err(())
      else
        var secret := secrets[c.injection.secret];
        var value :=
          if c.mode == Inject then FormatInjected(c.injection, secret)
          else if c.fake.Some? then Substituted(h, c.injection, c.fake.value, secret) else None;
        if value.None? then (if c.mode == Inject then Err(()) else Ok(None))
        else if !IsHeaderValue(value.value) then Err(()) else Ok(Some((name.value, value.value)))
  }

  /** `original` with the headers that the credentials set. */
  function Overlay(original: Headers, credentials: seq<Credential>, secrets: Secrets): Headers {
    if credentials == [] then original
    else
      var before := Overlay(original, credentials[..|credentials| - 1], secrets);
      var r := RewriteFor(original, credentials[|credentials| - 1], secrets);
      if r.Ok? && r.value.Some? then before[r.value.value.0 := [r.value.value.1]] else before
  }

  predicate AllRewrite(h: Headers, credentials: seq<Credential>, secrets: Secrets) {
    forall k :: 0 <= k < |credentials| ==> RewriteFor(h, credentials[k], secrets).Ok?
  }

  /** What apply_header_credentials leaves in the request. */
  function Applied(h: Headers, credentials: seq<Credential>, secrets: Secrets): Result<Headers, ()> {
    if AllRewrite(h, credentials, secrets) then Ok(Overlay(h, credentials, secrets)) else Err(())
  }

  function Store(h: Headers, values: seq<(string, string)>): Headers {
    if values == [] then h
    else Store(h, values[..|values| - 1])[values[|values| - 1].0 := [values[|values| - 1].1]]
  }

  class Request {
    var path: Option<string>
    var headers: Headers

    constructor (path: Option<string>, headers: Headers)
      ensures this.path == path && this.headers == headers
    {
      this.path, this.headers := path, headers;
    }

    /** Computes every value from the unchanged request, then replaces the headers: all of them or none. */
    method ApplyHeaderCredentials(credentials: seq<Credential>, secrets: Secrets) returns (ok: bool)
      modifies this`headers
      ensures ok <==> Applied(old(headers), credentials, secrets).Ok?
      ensures headers == if ok then Applied(old(headers), credentials, secrets).value else old(headers)
    {
      var values: seq<(string, string)> := [];
      for k := 0 to |credentials|
        invariant headers == old(headers)
        invariant AllRewrite(headers, credentials[..k], secrets)
        invariant Store(headers, values) == Overlay(headers, credentials[..k], secrets)
      {
        assert credentials[..k + 1][..k] == credentials[..k];
        var r := RewriteFor(headers, credentials[k], secrets);
        if r.Err? { return false; }
        if r.value.Some? {
          assert (values + [r.value.value])[..|values|] == values;
          values := values + [r.value.value];
        }
      }
      assert credentials[..|credentials|] == credentials;
      for k := 0 to |values|
        invariant headers == Store(old(headers), values[..k])
      {
        assert values[..k + 1][..k] == values[..k];
        var (name, value) := values[k];
        headers := headers - {name};
        headers := headers[name := [value]];
      }
      assert values[..|values|] == values;
      return true;
    }
  }

  // ----- order -----

  function LowerCredential(c: Credential): Credential {
    c.(injection := c.injection.(header := Lower(c.injection.header)))
  }

  /** No two credentials set the same header. */
  ghost predicate DistinctHeaders(credentials: seq<Credential>) {
    forall i, j :: 0 <= i < j < |credentials| ==>
                     Lower(credentials[i].injection.header) != Lower(credentials[j].injection.header)
  }

  lemma LowerToken(s: string)
    ensures HeaderName(Lower(s)) == HeaderName(s)
  {
    LowerTwice(s);
    assert IsToken(Lower(s)) <==> IsToken(s) by {
      assert forall c :: IsTokenChar(LowerChar(c)) <==> IsTokenChar(c);
      assert forall i :: 0 <= i < |s| ==> Lower(s)[i] == LowerChar(s[i]);
    }
  }

  lemma FormatsIgnoreHeader(value: string, i: HeaderInjection, header: string, fake: string, actual: string)
    ensures SubstituteValue(value, i.(header := header), fake, actual) == SubstituteValue(value, i, fake, actual)
    ensures FormatInjected(i.(header := header), actual) == FormatInjected(i, actual)
  {
    hide SplitOnce; hide Encode; hide Decode;
  }

  /** Header case does not matter to a rewrite, and a rewrite sets the credential's own header. */
  lemma RewriteIgnoresCase(h: Headers, c: Credential, secrets: Secrets)
    ensures RewriteFor(h, LowerCredential(c), secrets) == RewriteFor(h, c, secrets)
    ensures var r := RewriteFor(h, c, secrets);
            r.Ok? && r.value.Some? ==> r.value.value.0 == Lower(c.injection.header)
  {
    hide SubstituteValue; hide FormatInjected; hide IsToken; hide IsHeaderValue; hide Lower;
    var i := c.injection;
    LowerToken(i.header);
    if HeaderName(i.header).Some? && i.secret in secrets {
      var values := Values(h, HeaderName(i.header).value);
      FormatsIgnoreHeader(if |values| == 1 then values[0] else "", i, Lower(i.header),
                          if c.fake.Some? then c.fake.value else "", secrets[i.secret]);
    }
  }

  ghost predicate Sets(h: Headers, c: Credential, secrets: Secrets, name: string, value: string) {
    RewriteFor(h, c, secrets) == Ok(Some((name, value)))
  }

  ghost predicate SetBy(h: Headers, credentials: seq<Credential>, secrets: Secrets, name: string, value: string) {
    exists k :: 0 <= k < |credentials| && Sets(h, credentials[k], secrets, name, value)
  }

  /** Each outgoing header is the one that some credential sets, else the incoming one. */
  lemma {:induction false} OverlayAt(h: Headers, credentials: seq<Credential>, secrets: Secrets, name: string)
    requires DistinctHeaders(credentials)
    ensures var out := Overlay(h, credentials, secrets);
            && (forall v :: SetBy(h, credentials, secrets, name, v) ==> name in out && out[name] == [v])
            && ((forall v :: !SetBy(h, credentials, secrets, name, v)) ==> Entry(out, name) == Entry(h, name))
  {
    if credentials != [] {
      hide RewriteFor;
      var n := |credentials| - 1;
      var front, last := credentials[..n], credentials[n];
      assert credentials == front + [last];
      OverlayAt(h, front, secrets, name);
      RewriteIgnoresCase(h, last, secrets);
      SetByLast(h, front, last, secrets, name);
      hide SetBy; hide DistinctHeaders;
    }
  }

  lemma SetByLast(h: Headers, front: seq<Credential>, last: Credential, secrets: Secrets, name: string)
    requires DistinctHeaders(front + [last])
    ensures forall v :: SetBy(h, front + [last], secrets, name, v) <==>
                        SetBy(h, front, secrets, name, v) || Sets(h, last, secrets, name, v)
    ensures forall v :: SetBy(h, front, secrets, name, v) ==> name != Lower(last.injection.header)
  {
    hide RewriteFor;
    var all := front + [last];
    assert all[|front|] == last;
    forall v ensures SetBy(h, all, secrets, name, v) <==> SetBy(h, front, secrets, name, v) || Sets(h, last, secrets, name, v) {
      if SetBy(h, front, secrets, name, v) {
        var k :| 0 <= k < |front| && Sets(h, front[k], secrets, name, v);
        assert Sets(h, all[k], secrets, name, v);
      }
    }
    forall v | SetBy(h, front, secrets, name, v) ensures name != Lower(last.injection.header) {
      var k :| 0 <= k < |front| && Sets(h, front[k], secrets, name, v);
      RewriteIgnoresCase(h, front[k], secrets);
      assert all[k] == front[k];
    }
  }

  /** Every credential of one list appears in the other, up to the case of its header. */
  ghost predicate Covers(a: seq<Credential>, b: seq<Credential>) {
    forall j :: 0 <= j < |b| ==> CoveredBy(a, b[j])
  }

  ghost predicate CoveredBy(a: seq<Credential>, c: Credential) {
    exists i :: 0 <= i < |a| && LowerCredential(a[i]) == LowerCredential(c)
  }

  lemma CoveredSets(h: Headers, a: seq<Credential>, b: seq<Credential>, secrets: Secrets, name: string)
    requires Covers(a, b)
    ensures AllRewrite(h, a, secrets) ==> AllRewrite(h, b, secrets)
    ensures forall v :: SetBy(h, b, secrets, name, v) ==> SetBy(h, a, secrets, name, v)
  {
    hide RewriteFor; hide LowerCredential;
    forall j | 0 <= j < |b|
      ensures exists i :: 0 <= i < |a| && RewriteFor(h, a[i], secrets) == RewriteFor(h, b[j], secrets)
    {
      assert CoveredBy(a, b[j]);
      var i :| 0 <= i < |a| && LowerCredential(a[i]) == LowerCredential(b[j]);
      RewriteIgnoresCase(h, a[i], secrets);
      RewriteIgnoresCase(h, b[j], secrets);
    }
    forall v | SetBy(h, b, secrets, name, v) ensures SetBy(h, a, secrets, name, v) {
      var j :| 0 <= j < |b| && Sets(h, b[j], secrets, name, v);
      var i :| 0 <= i < |a| && RewriteFor(h, a[i], secrets) == RewriteFor(h, b[j], secrets);
      assert Sets(h, a[i], secrets, name, v);
    }
  }

  lemma SameAt(h: Headers, a: seq<Credential>, b: seq<Credential>, secrets: Secrets, name: string)
    requires DistinctHeaders(a) && DistinctHeaders(b) && Covers(a, b) && Covers(b, a)
    ensures Entry(Overlay(h, a, secrets), name) == Entry(Overlay(h, b, secrets), name)
  {
    hide SetBy; hide Overlay; hide Covers; hide DistinctHeaders; hide AllRewrite;
    OverlayAt(h, a, secrets, name);
    OverlayAt(h, b, secrets, name);
    CoveredSets(h, a, b, secrets, name);
    CoveredSets(h, b, a, secrets, name);
    if v :| SetBy(h, a, secrets, name, v) {}
  }

  /** The outgoing headers depend neither on the order of the credentials nor on the case of their headers. */
  lemma OrderIndependent(h: Headers, a: seq<Credential>, b: seq<Credential>, secrets: Secrets)
    requires DistinctHeaders(a) && DistinctHeaders(b) && Covers(a, b) && Covers(b, a)
    ensures Applied(h, a, secrets) == Applied(h, b, secrets)
  {
    hide Overlay; hide Covers; hide DistinctHeaders; hide AllRewrite;
    CoveredSets(h, a, b, secrets, "");
    CoveredSets(h, b, a, secrets, "");
    var left, right := Overlay(h, a, secrets), Overlay(h, b, secrets);
    forall name ensures Entry(left, name) == Entry(right, name) { SameAt(h, a, b, secrets, name); }
    assert left == right by {
      forall name ensures (name in left <==> name in right) && (name in left ==> left[name] == right[name]) {
        assert Entry(left, name) == Entry(right, name);
      }
    }
  }
}
