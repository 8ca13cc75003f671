/** Session files that import other files (src/control/file_config.rs:85-278 and 341-398). */
module Composition {
  import opened Basics
  import opened Config
  import opened Text

  const MAX_IMPORT_DEPTH: nat := 32
  const MAX_IMPORT_FILES: nat := 128
  const MAX_NAME_BYTES: nat := 1024
  const MAX_COMPONENT_BYTES: nat := 255

  datatype ErrorKind = NotFound | Unavailable | Invalid

  /**
   A file that could be read and is a TOML table. `imports` is missing when it is not a list of strings, and
   `policy` when the rest of the table is not a valid session document.
   */
  datatype File = File(
    setsLifecycle: bool, imports: Option<seq<string>>, setsUnmatched: bool, policy: Option<SessionConfig>)

  /** The directory. A name outside the map does not exist. */
  type Files = map<string, Result<File, ErrorKind>>

  // ----- import names -----

  /** Control characters of Unicode, as UTF-8 bytes. */
  predicate HasControl(s: string) {
    exists i :: 0 <= i < |s| && (s[i] < ' ' || s[i] == 127 as char ||
                                 (s[i] == 0xC2 as char && i + 1 < |s| && 0x80 as char <= s[i + 1] <= 0x9F as char))
  }

  predicate IsComponent(s: string) { s !in ["", ".", ".."] && |s| <= MAX_COMPONENT_BYTES }

  /** validate_session_config_name (crates/baffle-client/src/policy.rs:59-77). */
  predicate IsConfigName(s: string) {
    && s != [] && |s| <= MAX_NAME_BYTES && EndsWith(s, ".toml") && !ContainsAny(s, "\\:") && !HasControl(s)
    && forall k :: 0 <= k < |Split(s, '/')| ==> IsComponent(Split(s, '/')[k])
  }

  function Parent(name: string): seq<string> {
    var pieces := Split(name, '/');
    pieces[..|pieces| - 1]
  }

  /** Follows the pieces of an import from a directory; `..` must not leave the configuration directory. */
  function Follow(components: seq<string>, pieces: seq<string>): Option<seq<string>>
    decreases |pieces|
  {
    if pieces == [] then Some(components)
    else if pieces[0] == "" then None
    else if pieces[0] == "." then Follow(components, pieces[1..])
    else if pieces[0] == ".." then
      if components == [] then None else Follow(components[..|components| - 1], pieces[1..])
    else Follow(components + [pieces[0]], pieces[1..])
  }

  function ResolveImport(importing: string, imp: string): Option<string> {
    if imp == [] || |imp| > MAX_NAME_BYTES || imp[0] == '/' || ContainsAny(imp, "\\:") || HasControl(imp) then None
    else
      var components := Follow(Parent(importing), Split(imp, '/'));
      if components.None? || components.value == [] then None
      else
        var name := Join(components.value, '/');
        if IsConfigName(name) then Some(name) else None
  }

  method ResolveImportName(importing: string, imp: string) returns (r: Option<string>)
    ensures r == ResolveImport(importing, imp)
  {
    if imp == [] || |imp| > MAX_NAME_BYTES || imp[0] == '/' || ContainsAny(imp, "\\:") || HasControl(imp) {
      return None;
    }
    var components := Parent(importing);
    var pieces := Split(imp, '/');
    assert pieces[0..] == pieces;
    for k := 0 to |pieces|
      invariant Follow(Parent(importing), pieces) == Follow(components, pieces[k..])
    {
      var piece := pieces[k];
      if piece == "" { return None; }
      if piece == "." { continue; }
      if piece == ".." {
        if components == [] { return None; }
        components := components[..|components| - 1];
      } else {
        components := components + [piece];
      }
    }
    if components == [] { return None; }
    var name := Join(components, '/');
    if !IsConfigName(name) { return None; }
    return Some(name);
  }

  // ----- merging -----

  /** Everything composition collects except its stack and the set of finished files. */
  datatype Merged = Merged(
    hosts: set<string>, rules: seq<HostRule>,
    importedUnmatched: Option<UnmatchedHostPolicy>, rootUnmatched: Option<UnmatchedHostPolicy>,
    importedDefault: Option<CredentialMode>, rootDefault: Option<CredentialMode>,
    modes: map<string, CredentialMode>)

  const NOTHING := Merged({}, [], None, None, None, None, map[])

  predicate Conflicts<T(==)>(current: Option<T>, value: T) { current.Some? && current.value != value }

  predicate ModesConflict(m: map<string, CredentialMode>, p: map<string, CredentialMode>) {
    exists secret :: secret in m && secret in p && m[secret] != p[secret]
  }

  function HostSet(rules: seq<HostRule>): set<string> { set r | r in rules :: r.host }

  /** Adds the rules until one names a host twice. */
  function AddRules(hosts: set<string>, rules: seq<HostRule>): Option<set<string>>
    decreases |rules|
  {
    if rules == [] then Some(hosts)
    else if rules[0].host in hosts then None
    else AddRules(hosts + {rules[0].host}, rules[1..])
  }

  /** Adds the settings of one file, or finds a conflict. */
  function Merge(m: Merged, file: File, isRoot: bool): Option<Merged> {
    if file.policy.None? then None
    else
      var p := file.policy.value;
      if file.setsUnmatched && Conflicts(if isRoot then m.rootUnmatched else m.importedUnmatched, p.unmatched)
      then None
      else if p.defaultMode.Some? && Conflicts(if isRoot then m.rootDefault else m.importedDefault, p.defaultMode.value)
      then None
      else if ModesConflict(m.modes, p.modes) || AddRules(m.hosts, p.rules).None? then None
      else
        Some(Merged(AddRules(m.hosts, p.rules).value, m.rules + p.rules,
                    if file.setsUnmatched && !isRoot then Some(p.unmatched) else m.importedUnmatched,
                    if file.setsUnmatched && isRoot then Some(p.unmatched) else m.rootUnmatched,
                    if p.defaultMode.Some? && !isRoot then p.defaultMode else m.importedDefault,
                    if p.defaultMode.Some? && isRoot then p.defaultMode else m.rootDefault,
                    m.modes + p.modes))
  }

  function Unmatched(m: Merged): UnmatchedHostPolicy {
    if m.rootUnmatched.Some? then m.rootUnmatched.value else DenyUnmatched
  }

  function DefaultMode(m: Merged): CredentialMode { if m.rootDefault.Some? then m.rootDefault.value else Inject }

  /** Imported settings agree with what the root makes effective. */
  predicate RootAgrees(m: Merged) {
    !Conflicts(m.importedUnmatched, Unmatched(m)) && !Conflicts(m.importedDefault, DefaultMode(m))
  }

  // ----- the walk -----

  datatype Progress = Progress(stack: seq<string>, loaded: set<string>, merged: Merged)

  type Outcome = Result<Progress, ErrorKind>

  function Compose(files: Files, name: string, isRoot: bool, c: Progress): (r: Outcome)
    ensures r.Ok? ==> r.value.stack == c.stack
    decreases MAX_IMPORT_DEPTH - |c.stack|, 0
  {
    if name in c.stack then Err(Invalid)
    else if name in c.loaded then Ok(c)
    else if |c.stack| >= MAX_IMPORT_DEPTH || |c.stack| + |c.loaded| >= MAX_IMPORT_FILES then Err(Invalid)
    else if name !in files then Err(NotFound)
    else if files[name].Err? then Err(files[name].error)
    else
      var file := files[name].value;
      if (!isRoot && file.setsLifecycle) || file.imports.None? then Err(Invalid)
      else
        var r := ComposeImports(files, name, file.imports.value, c.(stack := c.stack + [name]));
        if r.Err? then r
        else
          var m := Merge(r.value.merged, file, isRoot);
          if m.None? || (isRoot && !RootAgrees(m.value)) then Err(Invalid)
          else Ok(Progress(c.stack, r.value.loaded + {name}, m.value))
  }

  function ComposeImports(files: Files, name: string, imports: seq<string>, c: Progress): (r: Outcome)
    ensures r.Ok? ==> r.value.stack == c.stack
    decreases MAX_IMPORT_DEPTH - |c.stack|, 1 + |imports|
  {
    if imports == [] then Ok(c)
    else
      var imported := ResolveImport(name, imports[0]);
      if imported.None? then Err(Invalid)
      else
        var r := Compose(files, imported.value, false, c);
        if r.Err? then r else ComposeImports(files, name, imports[1..], r.value)
  }

  function Session(root: SessionConfig, m: Merged): SessionConfig {
    SessionConfig(root.persistent, root.socketName, Unmatched(m), m.rootDefault, m.modes, m.rules)
  }

  /** read_session as one expression; `ConfigComposer.ReadSession` is the walk with its shared state. */
  function ComposeSession(files: Files, root: string): Result<SessionConfig, ErrorKind> {
    var r := Compose(files, root, true, Progress([], {}, NOTHING));
    if r.Err? then Err(r.error)
    else if root !in files || files[root].Err? || files[root].value.policy.None? then Err(Invalid)
    else Ok(Session(files[root].value.policy.value, r.value.merged))
  }

  class ConfigComposer {
    const files: Files
    var stack: seq<string>
    var loaded: set<string>
    var hosts: set<string>
    var rules: seq<HostRule>
    var importedUnmatched: Option<UnmatchedHostPolicy>
    var rootUnmatched: Option<UnmatchedHostPolicy>
    var importedDefault: Option<CredentialMode>
    var rootDefault: Option<CredentialMode>
    var modes: map<string, CredentialMode>
    var root: Option<(bool, Option<string>)>

    constructor (files: Files)
      ensures this.files == files && View() == Progress([], {}, NOTHING) && root == None
    {
      this.files := files;
      stack, loaded, hosts, rules, modes, root := [], {}, {}, [], map[], None;
      importedUnmatched, rootUnmatched, importedDefault, rootDefault := None, None, None, None;
    }

    function Collected(): Merged
      reads this
    {
      Merged(hosts, rules, importedUnmatched, rootUnmatched, importedDefault, rootDefault, modes)
    }

    function View(): Progress
      reads this
    {
      Progress(stack, loaded, Collected())
    }

    /** Failure leaves the rest of the state undefined, because the whole composition is then abandoned. */
    method ComposeFile(name: string, isRoot: bool) returns (error: Option<ErrorKind>)
      modifies this
      ensures match Compose(files, name, isRoot, old(View()))
              case Ok(c) => error == None && View() == c
              case Err(kind) => error == Some(kind) && stack == old(stack)
      ensures isRoot && error.None? && name !in old(loaded) ==>
                && name in files && files[name].Ok? && files[name].value.policy.Some?
                && var p := files[name].value.policy.value; root == Some((p.persistent, p.socketName))
      decreases MAX_IMPORT_DEPTH - |stack|, 1
    {
      if name in stack { return Some(Invalid); }
      if name in loaded { return None; }
      if |stack| >= MAX_IMPORT_DEPTH { return Some(Invalid); }
      if |stack| + |loaded| >= MAX_IMPORT_FILES { return Some(Invalid); }
      ghost var before := stack;
      stack := stack + [name];
      error := ComposeContents(name, isRoot);
      stack := stack[..|stack| - 1];
      assert stack == before;
      if error.None? { loaded := loaded + {name}; }
    }

    method ComposeContents(name: string, isRoot: bool) returns (error: Option<ErrorKind>)
      requires stack != [] && stack[|stack| - 1] == name && |stack| <= MAX_IMPORT_DEPTH
      requires name !in stack[..|stack| - 1] && name !in loaded && |stack| + |loaded| <= MAX_IMPORT_FILES
      modifies this
      ensures stack == old(stack)
      ensures match Compose(files, name, isRoot, old(View()).(stack := old(stack)[..|old(stack)| - 1]))
              case Ok(c) => error == None && View() == c.(stack := old(stack), loaded := loaded) && c.loaded == loaded + {name}
              case Err(kind) => error == Some(kind)
      ensures isRoot && error.None? ==>
                && name in files && files[name].Ok? && files[name].value.policy.Some?
                && var p := files[name].value.policy.value; root == Some((p.persistent, p.socketName))
      decreases MAX_IMPORT_DEPTH - |stack| + 1, 0
    {
      ghost var before := stack[..|stack| - 1];
      assert stack == before + [name];
      if name !in files { return Some(NotFound); }
      if files[name].Err? { return Some(files[name].error); }
      var file := files[name].value;
      if !isRoot && file.setsLifecycle { return Some(Invalid); }
      if file.imports.None? { return Some(Invalid); }
      var imports := file.imports.value;
      ghost var start := View();
      assert imports[0..] == imports;
      for k := 0 to |imports|
        invariant stack == old(stack)
        invariant ComposeImports(files, name, imports, start) == ComposeImports(files, name, imports[k..], View())
      {
        var imported := ResolveImportName(name, imports[k]);
        if imported.None? { return Some(Invalid); }
        var failed := ComposeFile(imported.value, false);
        if failed.Some? { return failed; }
      }
      ghost var collected := Collected();
      var conflict := MergePolicy(file, isRoot);
      if conflict { return Some(Invalid); }
      if isRoot {
        if !RootAgrees(Collected()) { return Some(Invalid); }
        root := Some((file.policy.value.persistent, file.policy.value.socketName));
      }
      return None;
    }

    method MergePolicy(file: File, isRoot: bool) returns (conflict: bool)
      modifies this
      ensures stack == old(stack) && loaded == old(loaded) && root == old(root)
      ensures conflict <==> Merge(old(Collected()), file, isRoot).None?
      ensures !conflict ==> Collected() == Merge(old(Collected()), file, isRoot).value
    {
      if file.policy.None? { return true; }
      var policy := file.policy.value;
      if file.setsUnmatched {
        if Conflicts(if isRoot then rootUnmatched else importedUnmatched, policy.unmatched) { return true; }
        if isRoot { rootUnmatched := Some(policy.unmatched); } else { importedUnmatched := Some(policy.unmatched); }
      }
      if policy.defaultMode.Some? {
        if Conflicts(if isRoot then rootDefault else importedDefault, policy.defaultMode.value) { return true; }
        if isRoot { rootDefault := policy.defaultMode; } else { importedDefault := policy.defaultMode; }
      }
      conflict := MergeModes(policy.modes);
      if conflict { return true; }
      conflict := PushRules(policy.rules);
    }

    method MergeModes(added: map<string, CredentialMode>) returns (conflict: bool)
      modifies this`modes
      ensures conflict <==> ModesConflict(old(modes), added)
      ensures !conflict ==> modes == old(modes) + added
    {
      var left := added.Keys;
      while left != {}
        invariant left <= added.Keys
        invariant forall secret :: secret in added.Keys - left && secret in old(modes) ==> old(modes)[secret] == added[secret]
        invariant modes == old(modes) + map secret | secret in added.Keys - left :: added[secret]
      {
        var secret :| secret in left;
        var existing := if secret in modes then Some(modes[secret]) else None;
        modes := modes[secret := added[secret]];
        if Conflicts(existing, added[secret]) { return true; }
        left := left - {secret};
      }
      return false;
    }

    method PushRules(added: seq<HostRule>) returns (conflict: bool)
      modifies this`hosts, this`rules
      ensures conflict <==> AddRules(old(hosts), added).None?
      ensures !conflict ==> hosts == AddRules(old(hosts), added).value && rules == old(rules) + added
    {
      assert added[0..] == added;
      for k := 0 to |added|
        invariant AddRules(old(hosts), added) == AddRules(hosts, added[k..])
        invariant rules == old(rules) + added[..k]
      {
        if added[k].host in hosts { return true; }
        hosts := hosts + {added[k].host};
        rules := rules + [added[k]];
      }
      return false;
    }

    method ReadSession(name: string) returns (r: Result<SessionConfig, ErrorKind>)
      requires View() == Progress([], {}, NOTHING) && root == None
      modifies this
      ensures r == ComposeSession(files, name)
    {
      var error := ComposeFile(name, true);
      if error.Some? { return Err(error.value); }
      if root.None? { return Err(Invalid); }
      var (persistent, socketName) := root.value;
      return Ok(SessionConfig(
                  persistent, socketName, if rootUnmatched.Some? then rootUnmatched.value else DenyUnmatched,
                  rootDefault, modes, rules));
    }
  }
}
