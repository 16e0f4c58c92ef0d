/**
 * The relay's trust policy: how the connection key and the `insecure` flag decide the TLS
 * client configuration (`clientTLSConfig`). Decoding a key into identity material and
 * turning that material into a TLS configuration are done by collaborators this model does
 * not see; they are parameters here and may fail.
 */
module TlsPolicy {
  import opened Wrappers
  import opened Errors

  /** Identity material a connection key decodes to. */
  datatype KeyMaterial = KeyMaterial(certificate: string, privateKey: string, peerName: string)

  /** The fields of a TLS client configuration that the trust policy reads or sets. */
  datatype TlsConfig = TlsConfig(clientCertificate: Option<string>, insecureSkipVerify: bool, serverName: string)
  {
    predicate HasClientCert() { clientCertificate.Some? }
  }

  /** `ParseConnectionKey`: connection key to identity material, or a parse error. */
  type KeyParser = string -> Result<KeyMaterial, Error>

  /** `ClientTLSConfig`: identity material to a TLS configuration presenting it, or an error. */
  type ConfigBuilder = KeyMaterial -> Result<TlsConfig, Error>

  const KEY_REQUIRED: Error := Plain("connection key is required")
  const PARSE_KEY_CONTEXT := "parse connection key"
  const CONFIGURE_CONTEXT := "configure TLS"

  /** The arms of the `switch` in `clientTLSConfig`; `DefaultArm` is the `default:` written first. */
  datatype Arm = DefaultArm | SecureWithoutKey | InsecureWithoutKey | InsecureWithKey

  /** The expression of each `case`; the `default` arm has none and is never matched by a case. */
  predicate CaseGuard(arm: Arm, insecure: bool, key: string)
  {
    match arm
    case DefaultArm => false
    case SecureWithoutKey => !insecure && key == ""
    case InsecureWithoutKey => insecure && key == ""
    case InsecureWithKey => insecure && key != ""
  }

  /**
   * Go's expression-less `switch`: the cases are tried in order and the first that holds
   * runs; `default` runs only when none holds, wherever it is written.
   */
  function SelectArm(insecure: bool, key: string): (arm: Arm)
    ensures arm == DefaultArm <==> !insecure && key != ""
    ensures arm != DefaultArm ==> CaseGuard(arm, insecure, key)
    ensures forall a :: CaseGuard(a, insecure, key) ==> a == arm
  {
    if CaseGuard(SecureWithoutKey, insecure, key) then SecureWithoutKey
    else if CaseGuard(InsecureWithoutKey, insecure, key) then InsecureWithoutKey
    else if CaseGuard(InsecureWithKey, insecure, key) then InsecureWithKey
    else DefaultArm
  }

  /**
   * The part both key-bearing arms share: parse the key, then build a configuration from
   * it, wrapping each collaborator's error with the step that failed.
   */
  function ConfigFromKey(key: string, parse: KeyParser, configure: ConfigBuilder): (r: Result<TlsConfig, Error>)
    ensures parse(key).Failure? ==> r == Failure(Wrap(PARSE_KEY_CONTEXT, parse(key).error))
    ensures parse(key).Success? && configure(parse(key).value).Failure? ==>
              r == Failure(Wrap(CONFIGURE_CONTEXT, configure(parse(key).value).error))
    ensures r.Success? <==> parse(key).Success? && configure(parse(key).value).Success?
    ensures r.Success? ==> r.value == configure(parse(key).value).value
  {
    match parse(key)
    case Failure(e) => Failure(Wrapped(PARSE_KEY_CONTEXT, e))
    case Success(material) =>
      match configure(material)
      case Failure(e) => Failure(Wrapped(CONFIGURE_CONTEXT, e))
      case Success(cfg) => Success(cfg)
  }

  /** `clientTLSConfig(connectionKey, insecure)`. */
  function ClientTlsConfig(key: string, insecure: bool, parse: KeyParser, configure: ConfigBuilder)
    : (r: Result<TlsConfig, Error>)
    // secure mode without a key: refused
    ensures !insecure && key == "" ==> r == Failure(KEY_REQUIRED)
    // insecure mode without a key: no identity, no server verification
    ensures insecure && key == "" ==>
              r.Success? && !r.value.HasClientCert() && r.value.insecureSkipVerify && r.value.serverName == ""
    // with a key, both collaborators must succeed, and their errors come back wrapped
    ensures key != "" ==> (r.Success? <==> parse(key).Success? && configure(parse(key).value).Success?)
    ensures key != "" && parse(key).Failure? ==> r == Failure(Wrap(PARSE_KEY_CONTEXT, parse(key).error))
    ensures key != "" && parse(key).Success? && configure(parse(key).value).Failure? ==>
              r == Failure(Wrap(CONFIGURE_CONTEXT, configure(parse(key).value).error))
    // secure mode with a key: the built configuration, unmodified
    ensures !insecure && key != "" && r.Success? ==> r.value == configure(parse(key).value).value
    // insecure mode with a key: the built identity, but no verification and no server name
    ensures insecure && key != "" && r.Success? ==>
              r.value.clientCertificate == configure(parse(key).value).value.clientCertificate
              && r.value.insecureSkipVerify && r.value.serverName == ""
  {
    match SelectArm(insecure, key)
    case DefaultArm => ConfigFromKey(key, parse, configure)
    case SecureWithoutKey => Failure(KEY_REQUIRED)
    case InsecureWithoutKey => Success(TlsConfig(None, true, ""))
    case InsecureWithKey =>
      match ConfigFromKey(key, parse, configure)
      case Failure(e) => Failure(e)
      case Success(cfg) => Success(cfg.(insecureSkipVerify := true, serverName := ""))
  }

  /** Without a key neither collaborator is consulted: the result is the same whatever they do. */
  lemma KeyNotParsedWhenEmpty(insecure: bool, parse1: KeyParser, configure1: ConfigBuilder,
                              parse2: KeyParser, configure2: ConfigBuilder)
    ensures ClientTlsConfig("", insecure, parse1, configure1) == ClientTlsConfig("", insecure, parse2, configure2)
  {
  }

  /** The trust modes the policy can resolve to. */
  datatype TrustMode = Verified | InsecureNoIdentity | InsecureWithIdentity

  /** The decision table on its own: `None` is the refused combination. */
  function TrustModeOf(insecure: bool, keyPresent: bool): Option<TrustMode>
  {
    if !insecure then (if keyPresent then Some(Verified) else None)
    else if keyPresent then Some(InsecureWithIdentity)
    else Some(InsecureNoIdentity)
  }

  predicate VerifiesServer(mode: TrustMode) { mode == Verified }

  predicate PresentsIdentity(mode: TrustMode) { mode != InsecureNoIdentity }

  /** What `ClientTLSConfig` is trusted to produce: a configuration with a client identity and verification on. */
  predicate IdentityConfig(cfg: TlsConfig)
  {
    cfg.HasClientCert() && !cfg.insecureSkipVerify
  }

  /**
   * Whenever the collaborators behave (the builder yields identity configurations), a
   * successful `clientTLSConfig` realises exactly the trust mode of the decision table, and
   * it fails exactly when the table refuses or a collaborator fails.
   */
  lemma ClientTlsConfigFollowsTrustTable(key: string, insecure: bool, parse: KeyParser, configure: ConfigBuilder)
    requires forall m :: configure(m).Success? ==> IdentityConfig(configure(m).value)
    ensures TrustModeOf(insecure, key != "").None? ==> ClientTlsConfig(key, insecure, parse, configure).Failure?
    ensures ClientTlsConfig(key, insecure, parse, configure).Success? ==>
              var cfg := ClientTlsConfig(key, insecure, parse, configure).value;
              var mode := TrustModeOf(insecure, key != "");
              mode.Some?
              && cfg.insecureSkipVerify == !VerifiesServer(mode.value)
              && cfg.HasClientCert() == PresentsIdentity(mode.value)
  {
  }
}
