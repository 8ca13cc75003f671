/** Validation of rules and session documents (crates/baffle-client/src/policy.rs:130-355 and 488-551). */
module Validation {
  import opened Basics
  import opened Config
  import opened Text
  import opened Dns
  import opened Paths
  import opened Sorting
  import opened Effective
  import Credentials

  datatype RuleError =
    | NoPorts | ZeroPort | DuplicatePort | TunnelFeatures | BadPath(path: PathError) | OverlappingPaths
    | BadHeader | DuplicateHeader | BadSecret | BadUsername | MissingUsername | StrayUsername

  // ----- fields -----

  const PROHIBITED: seq<string> := [
    "connection", "content-length", "forwarded", "host", "http2-settings", "keep-alive", "proxy-authenticate",
    "proxy-authorization", "proxy-connection", "te", "trailer", "transfer-encoding", "upgrade", "x-forwarded-for",
    "x-forwarded-host", "x-forwarded-port", "x-forwarded-proto", "x-original-host", "x-original-url", "x-real-ip",
    "x-rewrite-url"]

  predicate IsHeader(s: string) { Credentials.IsToken(s) && Lower(s) !in PROHIBITED }

  predicate IsSecretId(s: string) {
    && 0 < |s| <= 64 && IsAlphanumeric(s[0]) && s[|s| - 1] !in ".-_"
    && (forall i :: 0 <= i < |s| ==> IsAlphanumeric(s[i]) || s[i] in "._-")
    && !HasDouble(s, '.')
  }

  predicate IsUsername(s: string) { s != [] && ':' !in s && forall i :: 0 <= i < |s| ==> ' ' <= s[i] <= '~' }

  // ----- one rule -----

  function PortsError(ports: seq<nat>, k: nat): Option<RuleError>
    requires k <= |ports|
    decreases |ports| - k
  {
    if k == |ports| then None
    else if ports[k] == 0 then Some(ZeroPort)
    else if ports[k] in ports[..k] then Some(DuplicatePort)
    else PortsError(ports, k + 1)
  }

  predicate OverlapsAny(done: seq<string>, path: string) {
    exists i :: 0 <= i < |done| && PathsOverlap(done[i], path)
  }

  function ValidPaths(raw: seq<string>, done: seq<string>): Result<seq<string>, RuleError> {
    if raw == [] then Ok(done)
    else
      var path := ValidatePath(raw[0]);
      if path.Err? then Err(BadPath(path.error))
      else if OverlapsAny(done, path.value) then Err(OverlappingPaths)
      else ValidPaths(raw[1..], done + [path.value])
  }

  function InjectionError(i: HeaderInjection, headers: set<string>): Option<RuleError> {
    if !IsHeader(i.header) then Some(BadHeader)
    else if Lower(i.header) in headers then Some(DuplicateHeader)
    else if !IsSecretId(i.secret) then Some(BadSecret)
    else if i.format == BasicPassword then
      if i.username.None? then Some(MissingUsername)
      else if !IsUsername(i.username.value) then Some(BadUsername) else None
    else if i.username.Some? then Some(StrayUsername) else None
  }

  function HeaderSet(inject: seq<HeaderInjection>): set<string> { set i | i in inject :: Lower(i.header) }

  function InjectionsError(inject: seq<HeaderInjection>, k: nat): Option<RuleError>
    requires k <= |inject|
    decreases |inject| - k
  {
    if k == |inject| then None
    else
      var error := InjectionError(inject[k], HeaderSet(inject[..k]));
      if error.Some? then error else InjectionsError(inject, k + 1)
  }

  function ValidatedRule(rule: HostRule, features: bool): Result<HostRule, RuleError> {
    if rule.ports == [] then Err(NoPorts)
    else if PortsError(rule.ports, 0).Some? then Err(PortsError(rule.ports, 0).value)
    else if rule.mode == Tunnel && features then Err(TunnelFeatures)
    else
      var paths := ValidPaths(rule.paths, []);
      if paths.Err? then Err(paths.error)
      else if InjectionsError(rule.inject, 0).Some? then Err(InjectionsError(rule.inject, 0).value)
      else Ok(rule.(paths := paths.value))
  }

  method ValidateRule(rule: HostRule, features: bool) returns (r: Result<HostRule, RuleError>)
    ensures r == ValidatedRule(rule, features)
  {
    hide ValidatePath; hide OverlapsAny; hide InjectionError; hide Lower;
    if rule.ports == [] { return Err(NoPorts); }
    var unique: set<nat> := {};
    for k := 0 to |rule.ports|
      invariant unique == set p | p in rule.ports[..k]
      invariant PortsError(rule.ports, 0) == PortsError(rule.ports, k)
    {
      var port := rule.ports[k];
      if port == 0 { return Err(ZeroPort); }
      if port in unique { return Err(DuplicatePort); }
      unique := unique + {port};
      assert rule.ports[..k + 1] == rule.ports[..k] + [port];
    }
    if rule.mode == Tunnel && features { return Err(TunnelFeatures); }
    var paths := [];
    for k := 0 to |rule.paths|
      invariant ValidPaths(rule.paths, []) == ValidPaths(rule.paths[k..], paths)
    {
      var path := ValidatePath(rule.paths[k]);
      if path.Err? { return Err(BadPath(path.error)); }
      if OverlapsAny(paths, path.value) { return Err(OverlappingPaths); }
      paths := paths + [path.value];
    }
    var headers: set<string> := {};
    for k := 0 to |rule.inject|
      invariant headers == HeaderSet(rule.inject[..k])
      invariant InjectionsError(rule.inject, 0) == InjectionsError(rule.inject, k)
    {
      var error := InjectionError(rule.inject[k], headers);
      if error.Some? { return Err(error.value); }
      headers := headers + {Lower(rule.inject[k].header)};
      assert rule.inject[..k + 1] == rule.inject[..k] + [rule.inject[k]];
    }
    return Ok(rule.(paths := paths));
  }

  // ----- what a valid rule is -----

  ghost predicate PathsOk(paths: seq<string>) {
    && (forall k :: 0 <= k < |paths| ==> IsPattern(paths[k]))
    && (forall i, j :: 0 <= i < j < |paths| ==> !PathsOverlap(paths[i], paths[j]))
  }

  predicate FieldsOk(i: HeaderInjection) {
    && IsHeader(i.header) && IsSecretId(i.secret)
    && (if i.format == BasicPassword then i.username.Some? && IsUsername(i.username.value) else i.username.None?)
  }

  ghost predicate InjectOk(inject: seq<HeaderInjection>) {
    (forall k :: 0 <= k < |inject| ==> FieldsOk(inject[k])) && DistinctBy(HeaderKey, inject)
  }

  ghost predicate PortsOk(ports: seq<nat>) {
    && (forall k :: 0 <= k < |ports| ==> ports[k] > 0)
    && (forall i, j :: 0 <= i < j < |ports| ==> ports[i] != ports[j])
  }

  ghost predicate ValidRule(r: HostRule) {
    && r.ports != [] && PortsOk(r.ports) && PathsOk(r.paths) && InjectOk(r.inject)
    && (r.mode == Tunnel ==> r.paths == [] && r.inject == [])
  }

  lemma {:induction false} PortsErrorMeaning(ports: seq<nat>, k: nat)
    requires k <= |ports|
    ensures PortsError(ports, k).None? <==>
            forall j :: k <= j < |ports| ==> ports[j] > 0 && ports[j] !in ports[..j]
    decreases |ports| - k
  {
    if k < |ports| { PortsErrorMeaning(ports, k + 1); }
  }

  lemma PortsMeaning(ports: seq<nat>)
    ensures PortsError(ports, 0).None? <==> PortsOk(ports)
  {
    PortsErrorMeaning(ports, 0);
    if PortsError(ports, 0).None? {
      forall i, j | 0 <= i < j < |ports| ensures ports[i] != ports[j] { assert ports[..j][i] == ports[i]; }
    }
  }

  lemma {:induction false} InjectionsErrorMeaning(inject: seq<HeaderInjection>, k: nat)
    requires k <= |inject|
    ensures InjectionsError(inject, k).None? <==>
            forall j :: k <= j < |inject| ==> InjectionError(inject[j], HeaderSet(inject[..j])).None?
    decreases |inject| - k
  {
    hide InjectionError; hide HeaderSet;
    if k < |inject| { InjectionsErrorMeaning(inject, k + 1); }
  }

  lemma InjectionMeaning(i: HeaderInjection, headers: set<string>)
    ensures InjectionError(i, headers).None? <==> FieldsOk(i) && HeaderKey(i) !in headers
  {
    hide IsHeader; hide IsSecretId; hide IsUsername;
  }

  lemma InjectMeaning(inject: seq<HeaderInjection>)
    ensures InjectionsError(inject, 0).None? <==> InjectOk(inject)
  {
    hide InjectionError; hide FieldsOk; hide HeaderKey;
    InjectionsErrorMeaning(inject, 0);
    forall j | 0 <= j < |inject|
      ensures InjectionError(inject[j], HeaderSet(inject[..j])).None? <==>
              FieldsOk(inject[j]) && forall i :: 0 <= i < j ==> HeaderKey(inject[i]) != HeaderKey(inject[j])
    {
      InjectionMeaning(inject[j], HeaderSet(inject[..j]));
      HeaderSetIs(inject, j, HeaderKey(inject[j]));
    }
  }

  lemma HeaderSetIs(inject: seq<HeaderInjection>, j: nat, key: string)
    requires j <= |inject|
    ensures key in HeaderSet(inject[..j]) <==> exists i :: 0 <= i < j && HeaderKey(inject[i]) == key
  {
    if i :| 0 <= i < j && HeaderKey(inject[i]) == key { assert inject[..j][i] in inject[..j]; }
  }

  /** Validated paths are patterns that extend `done` without any overlap. */
  lemma {:induction false} ValidPathsAreOk(raw: seq<string>, done: seq<string>)
    requires PathsOk(done) && ValidPaths(raw, done).Ok?
    ensures PathsOk(ValidPaths(raw, done).value) && |ValidPaths(raw, done).value| == |done| + |raw|
  {
    hide PathsOverlap; hide IsPattern; hide ValidatePath;
    if raw != [] {
      ValidatedIsPattern(raw[0]);
      ValidPathsAreOk(raw[1..], done + [ValidatePath(raw[0]).value]);
    }
  }

  /** Patterns without overlaps validate to themselves. */
  lemma {:induction false} OkPathsAreValid(raw: seq<string>, done: seq<string>)
    requires PathsOk(done + raw)
    ensures ValidPaths(raw, done) == Ok(done + raw)
  {
    hide PathsOverlap; hide IsPattern; hide ValidatePath;
    if raw != [] {
      var all := done + raw;
      assert all[|done|] == raw[0];
      PatternIsValid(raw[0]);
      assert forall i :: 0 <= i < |done| ==> all[i] == done[i];
      assert done + [raw[0]] + raw[1..] == all;
      OkPathsAreValid(raw[1..], done + [raw[0]]);
    } else {
      assert done + raw == done;
    }
  }

  /** Validation returns only valid rules, and keeps everything but the spelling of the paths. */
  lemma ValidatedIsValid(rule: HostRule, features: bool)
    requires ValidatedRule(rule, features).Ok? && (!features ==> rule.paths == [] && rule.inject == [])
    ensures var r := ValidatedRule(rule, features).value;
            ValidRule(r) && r == rule.(paths := r.paths) && |r.paths| == |rule.paths|
  {
    hide PathsOk; hide InjectOk; hide PortsOk; hide ValidPaths; hide PortsError; hide InjectionsError;
    PortsMeaning(rule.ports);
    InjectMeaning(rule.inject);
    NoPathsOk();
    ValidPathsAreOk(rule.paths, []);
  }

  lemma NoPathsOk()
    ensures PathsOk([])
  {
  }

  /** A valid rule validates to itself. */
  lemma ValidValidates(r: HostRule)
    requires ValidRule(r)
    ensures ValidatedRule(r, r.paths != [] || r.inject != []) == Ok(r)
  {
    hide PathsOk; hide InjectOk; hide PortsOk; hide ValidPaths; hide PortsError; hide InjectionsError;
    PortsMeaning(r.ports);
    InjectMeaning(r.inject);
    assert [] + r.paths == r.paths;
    OkPathsAreValid(r.paths, []);
  }

  /** In a valid rule a request path matches at most one pattern. */
  lemma AtMostOneMatch(r: HostRule, path: string, i: nat, j: nat)
    requires ValidRule(r) && IsCanonical(path) && i < |r.paths| && j < |r.paths|
    requires MatchesPattern(r.paths[i], path) && MatchesPattern(r.paths[j], path)
    ensures i == j
  {
    hide InjectOk; hide PortsOk; hide PathsOverlap; hide MatchesPattern; hide IsPattern; hide IsCanonical;
    if i < j { OverlapIsSharedPath(r.paths[i], r.paths[j]); }
    if j < i { OverlapIsSharedPath(r.paths[j], r.paths[i]); }
  }

  // ----- acceptance -----

  /** `paths` are the texts validated one by one. */
  predicate Respelled(raw: seq<string>, paths: seq<string>) {
    |paths| == |raw| && forall k :: 0 <= k < |raw| ==> ValidatePath(raw[k]) == Ok(paths[k])
  }

  ghost predicate Extends(done: seq<string>, more: seq<string>) {
    forall i, j :: 0 <= i < j < |done + more| && |done| <= j ==> !PathsOverlap((done + more)[i], (done + more)[j])
  }

  lemma {:induction false} ValidPathsExactly(raw: seq<string>, done: seq<string>, paths: seq<string>)
    ensures ValidPaths(raw, done) == Ok(done + paths) <==> Respelled(raw, paths) && Extends(done, paths)
  {
    hide PathsOverlap; hide ValidatePath;
    if raw == [] {
      if paths == [] { assert done + paths == done; }
      else { assert |done + paths| > |done|; }
    } else {
      var v := ValidatePath(raw[0]);
      if v.Ok? && !OverlapsAny(done, v.value) {
        var rest := if paths == [] then [] else paths[1..];
        ValidPathsExactly(raw[1..], done + [v.value], rest);
        ValidPathsLonger(raw[1..], done + [v.value]);
        if ValidPaths(raw, done) == Ok(done + paths) {
          assert |done + paths| > |done| && (done + paths)[|done|] == (done + [v.value])[|done|];
        }
        if paths != [] {
          if paths[0] == v.value { assert done + [v.value] + rest == done + paths; }
          FirstPath(raw, done, paths, v.value);
        }
      } else if Respelled(raw, paths) {
        var i :| 0 <= i < |done| && PathsOverlap(done[i], v.value);
        assert (done + paths)[i] == done[i] && (done + paths)[|done|] == paths[0] == v.value;
      }
    }
  }

  lemma {:induction false} ValidPathsLonger(raw: seq<string>, done: seq<string>)
    ensures ValidPaths(raw, done).Ok? ==> done <= ValidPaths(raw, done).value && |ValidPaths(raw, done).value| == |done| + |raw|
  {
    hide PathsOverlap; hide ValidatePath;
    if raw != [] && ValidatePath(raw[0]).Ok? { ValidPathsLonger(raw[1..], done + [ValidatePath(raw[0]).value]); }
  }

  lemma FirstPath(raw: seq<string>, done: seq<string>, paths: seq<string>, v: string)
    requires raw != [] && paths != [] && ValidatePath(raw[0]) == Ok(v) && !OverlapsAny(done, v)
    ensures Respelled(raw, paths) && Extends(done, paths) <==>
            paths[0] == v && Respelled(raw[1..], paths[1..]) && Extends(done + [v], paths[1..])
  {
    hide PathsOverlap; hide ValidatePath;
    var rest := paths[1..];
    if paths[0] == v {
      assert done + [v] + rest == done + paths;
      var all := done + paths;
      assert all[|done|] == v && forall i :: 0 <= i < |done| ==> all[i] == done[i];
      assert Respelled(raw, paths) <==> Respelled(raw[1..], rest) by {
        assert forall k :: 0 <= k < |rest| ==> rest[k] == paths[k + 1];
        if Respelled(raw[1..], rest) {
          forall k | 0 <= k < |raw| ensures ValidatePath(raw[k]) == Ok(paths[k]) {
            if k > 0 { assert raw[1..][k - 1] == raw[k] && rest[k - 1] == paths[k]; }
          }
        }
      }
    }
  }

  ghost predicate NoOverlaps(paths: seq<string>) {
    forall i, j :: 0 <= i < j < |paths| ==> !PathsOverlap(paths[i], paths[j])
  }

  /**
   A rule is accepted, as `r`, exactly if its ports are some, distinct and not zero, a tunnel asks for nothing more,
   every path is valid and the respelled ones do not overlap, and its injections are valid and distinct; only the
   spelling of its paths changes.
   */
  lemma ValidatesExactly(rule: HostRule, features: bool, r: HostRule)
    ensures ValidatedRule(rule, features) == Ok(r) <==>
            && rule.ports != [] && PortsOk(rule.ports) && !(rule.mode == Tunnel && features) && InjectOk(rule.inject)
            && r == rule.(paths := r.paths) && Respelled(rule.paths, r.paths) && NoOverlaps(r.paths)
  {
    hide InjectOk; hide PortsOk; hide ValidPaths; hide PortsError; hide InjectionsError; hide Respelled; hide PathsOverlap;
    PortsMeaning(rule.ports);
    InjectMeaning(rule.inject);
    ValidPathsExactly(rule.paths, [], r.paths);
    assert [] + r.paths == r.paths;
    assert Extends([], r.paths) <==> NoOverlaps(r.paths);
  }
}
