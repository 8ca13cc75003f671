/**
 Session configuration values (crates/baffle-client/src/lib.rs).

 Text is a `string` in which one character stands for one byte of the UTF-8 text the daemon handles,
 so lengths are byte lengths.
 */
module Config {
  import opened Basics

  datatype CredentialMode = Inject | Substitute | Disabled

  datatype UnmatchedHostPolicy = DenyUnmatched | TunnelUnmatched

  datatype RuleMode = Tunnel | Intercept

  datatype InjectionFormat = Raw | Bearer | BasicPassword

  datatype HeaderInjection = HeaderInjection(
    header: string, secret: string, format: InjectionFormat, username: Option<string>)

  datatype HostRule = HostRule(
    host: string, mode: RuleMode, ports: seq<nat>, paths: seq<string>, inject: seq<HeaderInjection>)

  datatype SessionConfig = SessionConfig(
    persistent: bool,
    socketName: Option<string>,
    unmatched: UnmatchedHostPolicy,
    defaultMode: Option<CredentialMode>,
    modes: map<string, CredentialMode>,
    rules: seq<HostRule>)

  /** The override for the secret, else the session default, else `Inject`. */
  function EffectiveMode(config: SessionConfig, secret: string): CredentialMode {
    if secret in config.modes then config.modes[secret]
    else if config.defaultMode.Some? then config.defaultMode.value
    else Inject
  }

  /** Credential seeds and resolved secret values are opaque to the lifecycle. */
  type Seed = nat
  type Secrets = map<string, string>
}
