/** The listener-configuration builders and the error-as-value helpers of the
    WebSocket module's utility class (stdlib/websocket WebSocketUtil.java).

    A builder in the source creates a transport `ListenerConfiguration` (or takes an
    `SslConfiguration`), calls its setters one after another and throws at the first
    rule that is broken. Here each builder is a method that updates a local value
    field by field in the same order and returns `Failure` where the source throws.
    Every method is specified twice: against a pure function that names the first
    rule broken (the check order), and against a pure function that says what every
    field of the result holds when no rule is broken. */
module WebSocketUtil {
  import opened Wrappers
  import opened JavaText

  const HttpDefaultHost: string := "0.0.0.0"
  const PkcsStoreType: string := "PKCS12"
  const ProtocolHttps: string := "https"
  const DefaultErrorMessage: string := "An unexpected error occurred."

  // ---------------------------------------------------------------------------
  // Inputs: the Ballerina endpoint configuration records as the builders read them.
  // A string field read with getStringField may be null (None).

  /** The `trustStore` / `keyStore` records: a file path and a password. */
  datatype Store = Store(path: Option<string>, password: Option<string>)

  /** The `protocol` record: enabled protocol versions and the protocol name. */
  datatype Protocols = Protocols(versions: seq<string>, name: Option<string>)

  /** The `certValidation` and `ocspStapling` records. */
  datatype CacheConfig = CacheConfig(enable: bool, cacheSize: int, cacheValidityPeriod: int)

  /** The listener's `secureSocket` record. */
  datatype SecureSocket = SecureSocket(
    trustStore: Option<Store>,
    keyStore: Option<Store>,
    protocol: Option<Protocols>,
    certValidation: Option<CacheConfig>,
    ocspStapling: Option<CacheConfig>,
    keyFile: Option<string>,
    certFile: Option<string>,
    trustedCertFile: Option<string>,
    keyPassword: Option<string>,
    sslVerifyClient: Option<string>,
    ciphers: seq<string>,
    shareSession: bool)

  /** The client's `secureSocket` record, read by populateSSLConfiguration: OCSP
      stapling is a plain flag here and host-name verification is configurable. */
  datatype ClientSecureSocket = ClientSecureSocket(
    trustStore: Option<Store>,
    keyStore: Option<Store>,
    protocol: Option<Protocols>,
    certValidation: Option<CacheConfig>,
    keyFile: Option<string>,
    certFile: Option<string>,
    trustedCertFile: Option<string>,
    keyPassword: Option<string>,
    hostNameVerification: bool,
    ocspStapling: bool,
    ciphers: seq<string>,
    shareSession: bool)

  /** The `requestLimits` record; -1 in a field means "keep the transport default". */
  datatype RequestLimits = RequestLimits(maxUriLength: int, maxHeaderSize: int, maxEntityBodySize: int)

  /** The listener endpoint configuration record. */
  datatype EndpointConfig = EndpointConfig(
    host: Option<string>,
    port: int,
    keepAlive: string,
    secureSocket: Option<SecureSocket>,
    httpVersion: Option<string>,
    requestLimits: Option<RequestLimits>,
    timeoutMillis: int,
    pipeliningLimit: int)

  /** What the builders read from the process: the `b7a.http.host` configuration
      entry and the `ballerina.version` system property. */
  datatype Env = Env(configuredHost: Option<string>, ballerinaVersion: Option<string>)

  /** The names under which the TLS parameter list is stored. The two callers of the
      server TLS builder use different constants for them. */
  datatype ParamNames = ParamNames(enabledProtocols: string, ciphers: string, sessionCreation: string)

  // ---------------------------------------------------------------------------
  // Outputs: the transport's configuration objects. `None` is a field whose setter
  // was not called (or was called with null); the transport's own default applies.

  datatype KeepAlive = Auto | Always | Never

  datatype Parameter = Parameter(name: string, value: string)

  datatype SizeValidation = SizeValidation(
    maxUriLength: Option<int>, maxHeaderSize: Option<int>, maxEntityBodySize: Option<int>)

  const DefaultSizeValidation: SizeValidation := SizeValidation(None, None, None)

  /** The TLS part of a server ListenerConfiguration, all set by setSslConfig. */
  datatype TlsSettings = TlsSettings(
    scheme: Option<string>,
    keyStoreFile: Option<string>,
    keyStorePass: Option<string>,
    serverKeyFile: Option<string>,
    serverCertificates: Option<string>,
    serverKeyPassword: Option<string>,
    verifyClient: Option<string>,
    trustStoreFile: Option<string>,
    trustStorePass: Option<string>,
    serverTrustCertificates: Option<string>,
    sslProtocol: Option<string>,
    validateCertEnabled: Option<bool>,
    cacheSize: Option<int>,
    cacheValidityPeriod: Option<int>,
    ocspStaplingEnabled: Option<bool>,
    tlsStoreType: Option<string>,
    parameters: Option<seq<Parameter>>,
    id: Option<string>)

  const NoTls: TlsSettings := TlsSettings(
    None, None, None, None, None, None, None, None, None, None, None, None, None, None, None, None, None, None)

  datatype ListenerConfiguration = ListenerConfiguration(
    host: Option<string>,
    port: Option<int>,
    keepAlive: Option<KeepAlive>,
    sizeValidation: SizeValidation,
    socketIdleTimeout: Option<int>,
    version: Option<string>,
    serverHeader: Option<string>,
    pipeliningNeeded: Option<bool>,
    pipeliningLimit: Option<int>,
    tls: TlsSettings)

  /** `new ListenerConfiguration()`: nothing set yet. */
  const NewListenerConfiguration: ListenerConfiguration := ListenerConfiguration(
    None, None, None, DefaultSizeValidation, None, None, None, None, None, NoTls)

  /** The client-side SslConfiguration fields populateSSLConfiguration may set. */
  datatype SslConfiguration = SslConfiguration(
    trustStoreFile: Option<string>,
    trustStorePass: Option<string>,
    clientTrustCertificates: Option<string>,
    keyStoreFile: Option<string>,
    keyStorePass: Option<string>,
    clientKeyFile: Option<string>,
    clientCertificates: Option<string>,
    clientKeyPassword: Option<string>,
    sslProtocol: Option<string>,
    validateCertEnabled: Option<bool>,
    cacheValidityPeriod: Option<int>,
    cacheSize: Option<int>,
    ocspStaplingEnabled: Option<bool>,
    hostNameVerificationEnabled: Option<bool>,
    parameters: Option<seq<Parameter>>)

  /** One constructor per exception message the builders throw. */
  datatype ConfigError =
    | PortNotDefined
    | IntegerOverflow
    | InvalidKeepAlive(value: string)
    | InvalidRequestLimit(field: string, limit: int)
    | NegativeIdleTimeout
    | BothKeyStoreAndKeyFile
    | MissingServerIdentity
    | MissingKeyStoreFile
    | MissingKeyStorePassword
    | MissingMutualSslTrust
    | MissingTrustStoreFile
    | MissingTrustStorePassword
    | BothTrustStoreAndTrustCerts
    | ClientBothKeyStoreAndKeyFile
    | MissingClientCertFile
  {
    /** The exception's message text. */
    function Message(): string {
      match this
      case PortNotDefined => "Listener port is not defined!"
      case IntegerOverflow => "integer overflow"
      case InvalidKeepAlive(v) => "Invalid configuration found for Keep-Alive: " + v
      case InvalidRequestLimit(f, v) => "Invalid configuration found for " + f + " : " + DecimalString(v)
      case NegativeIdleTimeout =>
        "Idle timeout cannot be negative. If you want to disable the timeout please use value 0"
      case BothKeyStoreAndKeyFile => "Cannot configure both keyStore and keyFile at the same time."
      case MissingServerIdentity =>
        "Either keystore or certificateKey and server certificates must be provided for secure connection"
      case MissingKeyStoreFile => "Keystore file location must be provided for secure connection."
      case MissingKeyStorePassword => "Keystore password must be provided for secure connection"
      case MissingMutualSslTrust => "Truststore location or trustCertificates must be provided to enable Mutual SSL"
      case MissingTrustStoreFile => "Truststore location must be provided to enable Mutual SSL"
      case MissingTrustStorePassword => "Truststore password value must be provided to enable Mutual SSL"
      case BothTrustStoreAndTrustCerts => "Cannot configure both trustStore and trustCerts at the same time."
      case ClientBothKeyStoreAndKeyFile => "Cannot configure both keyStore and keyFile."
      case MissingClientCertFile => "Need to configure certFile containing client ssl certificates."
    }
  }

  // ---------------------------------------------------------------------------
  // Small pure pieces.

  function DefaultHost(env: Env): string {
    env.configuredHost.GetOr(HttpDefaultHost)
  }

  /** The host a listener binds: the configured one unless it is null or trims to nothing. */
  function ListenerHost(host: Option<string>, env: Env): string {
    if host.None? || TrimsToEmpty(host.value) then DefaultHost(env) else host.value
  }

  /** getServerName: the Server header value. */
  function ServerName(env: Env): string {
    if env.ballerinaVersion.Some? then "ballerina/" + env.ballerinaVersion.value else "ballerina"
  }

  function BoolString(b: bool): string {
    if b then "true" else "false"
  }

  /** getListenerInterface: the listener id "host:port", a null host shown as 0.0.0.0.
      The id splits back into the host, a colon and the port's decimal text. */
  function GetListenerInterface(host: Option<string>, port: int): (r: string)
    ensures var h := host.GetOr(HttpDefaultHost);
      |r| > |h| + 1 && r[..|h| + 1] == h + ":" && r[|h| + 1..] == DecimalString(port)
    ensures host.None? ==> r[..|HttpDefaultHost| + 1] == "0.0.0.0:"
  {
    host.GetOr(HttpDefaultHost) + ":" + DecimalString(port)
  }

  /** On one host, the listener id tells ports apart: two ports share an id only
      when they are the same port. */
  lemma {:induction false} ListenerInterfaceDistinguishesPorts(host: Option<string>, p: int, q: int)
    requires GetListenerInterface(host, p) == GetListenerInterface(host, q)
    ensures p == q
  {
    var h := host.GetOr(HttpDefaultHost);
    assert DecimalString(p) == GetListenerInterface(host, p)[|h| + 1..];
    assert DecimalString(q) == GetListenerInterface(host, q)[|h| + 1..];
    DecimalStringInjective(p, q);
  }

  /** getKeepAliveConfig: exactly AUTO, ALWAYS or NEVER, anything else is an error. */
  function GetKeepAliveConfig(value: string): (r: Result<KeepAlive, ConfigError>)
    ensures r.Success? <==> value in {"AUTO", "ALWAYS", "NEVER"}
    ensures r.Failure? ==> r.error == InvalidKeepAlive(value)
    ensures r == Success(Auto) <==> value == "AUTO"
    ensures r == Success(Always) <==> value == "ALWAYS"
    ensures r == Success(Never) <==> value == "NEVER"
  {
    match value
    case "AUTO" => Success(Auto)
    case "ALWAYS" => Success(Always)
    case "NEVER" => Success(Never)
    case _ => Failure(InvalidKeepAlive(value))
  }

  /** getError: the message of the error value made from a throwable. */
  function GetError(message: Option<string>): (r: string)
    ensures message.None? ==> r == DefaultErrorMessage
    ensures message.Some? ==> r == message.value
  {
    message.GetOr(DefaultErrorMessage)
  }

  /** The comma-joined TLS parameter list: enabled protocols and ciphers when there
      are any, then the session-creation flag, which is always present. */
  function TlsParameters(protocol: Option<Protocols>, ciphers: seq<string>, shareSession: bool, names: ParamNames)
    : (r: seq<Parameter>)
  {
    ProtocolParameter(protocol, names) + CipherParameter(ciphers, names)
    + [Parameter(names.sessionCreation, BoolString(shareSession))]
  }

  function ProtocolParameter(protocol: Option<Protocols>, names: ParamNames): seq<Parameter> {
    if protocol.Some? && protocol.value.versions != []
    then [Parameter(names.enabledProtocols, Join(protocol.value.versions, ","))] else []
  }

  function CipherParameter(ciphers: seq<string>, names: ParamNames): seq<Parameter> {
    if ciphers != [] then [Parameter(names.ciphers, Join(ciphers, ","))] else []
  }

  lemma TlsParametersShape(protocol: Option<Protocols>, ciphers: seq<string>, shareSession: bool, names: ParamNames)
    ensures var r := TlsParameters(protocol, ciphers, shareSession, names);
      && 1 <= |r| <= 3
      && r[|r| - 1] == Parameter(names.sessionCreation, BoolString(shareSession))
      && (|r| == 3 <==> protocol.Some? && protocol.value.versions != [] && ciphers != [])
      && (protocol.Some? && protocol.value.versions != [] ==> r[0].name == names.enabledProtocols)
  {
  }

  // ---------------------------------------------------------------------------
  // Request size limits.

  /** The first request-limit rule broken, checked for the URI, the header and the body in turn. */
  function RequestLimitError(l: RequestLimits): Option<ConfigError> {
    if l.maxUriLength != -1 && l.maxUriLength < 0 then Some(InvalidRequestLimit("maxUriLength", l.maxUriLength))
    else if l.maxUriLength >= 0 && !InInt32(l.maxUriLength) then Some(IntegerOverflow)
    else if l.maxHeaderSize != -1 && l.maxHeaderSize < 0 then Some(InvalidRequestLimit("maxHeaderSize", l.maxHeaderSize))
    else if l.maxHeaderSize >= 0 && !InInt32(l.maxHeaderSize) then Some(IntegerOverflow)
    else if l.maxEntityBodySize != -1 && l.maxEntityBodySize < 0
    then Some(InvalidRequestLimit("maxEntityBodySize", l.maxEntityBodySize))
    else None
  }

  /** A limit of -1 keeps what was there; any other accepted value is stored. */
  function Limit(configured: int, current: Option<int>): Option<int> {
    if configured == -1 then current else Some(configured)
  }

  /** setRequestSizeValidationConfig. */
  method SetRequestSizeValidationConfig(l: RequestLimits, v: SizeValidation) returns (r: Result<SizeValidation, ConfigError>)
    ensures r.Failure? <==> RequestLimitError(l).Some?
    ensures r.Failure? ==> r.error == RequestLimitError(l).value
    ensures r.Success? ==> r.value == SizeValidation(
      Limit(l.maxUriLength, v.maxUriLength),
      Limit(l.maxHeaderSize, v.maxHeaderSize),
      Limit(l.maxEntityBodySize, v.maxEntityBodySize))
    ensures l.maxUriLength < -1 ==> r == Failure(InvalidRequestLimit("maxUriLength", l.maxUriLength))
    ensures l.maxUriLength >= -1 && l.maxHeaderSize < -1 && InInt32(l.maxUriLength)
      ==> r == Failure(InvalidRequestLimit("maxHeaderSize", l.maxHeaderSize))
  {
    var config := v;
    if l.maxUriLength != -1 {
      if l.maxUriLength >= 0 {
        var uri := ToIntExact(l.maxUriLength);
        if uri.None? {
          return Failure(IntegerOverflow);
        }
        config := config.(maxUriLength := uri);
      } else {
        return Failure(InvalidRequestLimit("maxUriLength", l.maxUriLength));
      }
    }
    if l.maxHeaderSize != -1 {
      if l.maxHeaderSize >= 0 {
        var header := ToIntExact(l.maxHeaderSize);
        if header.None? {
          return Failure(IntegerOverflow);
        }
        config := config.(maxHeaderSize := header);
      } else {
        return Failure(InvalidRequestLimit("maxHeaderSize", l.maxHeaderSize));
      }
    }
    if l.maxEntityBodySize != -1 {
      if l.maxEntityBodySize >= 0 {
        config := config.(maxEntityBodySize := Some(l.maxEntityBodySize));
      } else {
        return Failure(InvalidRequestLimit("maxEntityBodySize", l.maxEntityBodySize));
      }
    }
    return Success(config);
  }

  // ---------------------------------------------------------------------------
  // Server TLS (setSslConfig).

  /** The cache size, or the cache validity period, of a cache block. */
  function CacheField(c: CacheConfig, size: bool): int {
    if size then c.cacheSize else c.cacheValidityPeriod
  }

  /** An enabled cache block whose non-zero size or period does not fit an `int`. */
  predicate CacheOverflows(c: Option<CacheConfig>) {
    c.Some? && c.value.enable
    && ((c.value.cacheSize != 0 && !InInt32(c.value.cacheSize))
        || (c.value.cacheValidityPeriod != 0 && !InInt32(c.value.cacheValidityPeriod)))
  }

  /** The server's own identity: a key store with a file and a password, or a key
      file with its certificate file, and never both a key store and a key file. */
  function IdentityError(s: SecureSocket): Option<ConfigError> {
    if s.keyStore.Some? && IsNotBlank(s.keyFile) then Some(BothKeyStoreAndKeyFile)
    else if s.keyStore.None? && (IsBlank(s.keyFile) || IsBlank(s.certFile)) then Some(MissingServerIdentity)
    else if s.keyStore.Some? && IsBlank(s.keyStore.value.path) then Some(MissingKeyStoreFile)
    else if s.keyStore.Some? && IsBlank(s.keyStore.value.password) then Some(MissingKeyStorePassword)
    else None
  }

  /** Trust material for mutual SSL: demanded only when client verification is set. */
  function TrustError(s: SecureSocket): Option<ConfigError> {
    if s.trustStore.None? && IsNotBlank(s.sslVerifyClient) && IsBlank(s.trustedCertFile)
    then Some(MissingMutualSslTrust)
    else if s.trustStore.Some? && IsBlank(s.trustStore.value.path) && IsNotBlank(s.sslVerifyClient)
    then Some(MissingTrustStoreFile)
    else if s.trustStore.Some? && IsBlank(s.trustStore.value.password) && IsNotBlank(s.sslVerifyClient)
    then Some(MissingTrustStorePassword)
    else None
  }

  /** The first server TLS rule broken: identity, then mutual SSL trust, then cache sizes. */
  function ServerSslError(s: SecureSocket): Option<ConfigError> {
    if IdentityError(s).Some? then IdentityError(s)
    else if TrustError(s).Some? then TrustError(s)
    else if CacheOverflows(s.certValidation) || CacheOverflows(s.ocspStapling) then Some(IntegerOverflow)
    else None
  }

  /** The identity fields: from the key store when there is one, otherwise from the
      key file, with the key password only when it is not blank. */
  function IdentityFields(s: SecureSocket, tls: TlsSettings): TlsSettings {
    var ks := s.keyStore;
    tls.(
      keyStoreFile := if ks.Some? then ks.value.path else tls.keyStoreFile,
      keyStorePass := if ks.Some? then ks.value.password else tls.keyStorePass,
      serverKeyFile := if ks.None? then s.keyFile else tls.serverKeyFile,
      serverCertificates := if ks.None? then s.certFile else tls.serverCertificates,
      serverKeyPassword := if ks.None? && IsNotBlank(s.keyPassword) then s.keyPassword else tls.serverKeyPassword)
  }

  /** The trust fields: the trust store, taken as given, wins over trusted certificates. */
  function TrustFields(s: SecureSocket, tls: TlsSettings): TlsSettings {
    var ts := s.trustStore;
    tls.(
      verifyClient := s.sslVerifyClient,
      trustStoreFile := if ts.Some? then ts.value.path else tls.trustStoreFile,
      trustStorePass := if ts.Some? then ts.value.password else tls.trustStorePass,
      serverTrustCertificates :=
        if ts.None? && IsNotBlank(s.trustedCertFile) then s.trustedCertFile else tls.serverTrustCertificates)
  }

  /** The value a cache field ends with: OCSP stapling is applied after certificate
      validation, so an enabled non-zero OCSP value wins over the other. */
  function CacheValue(cv: Option<CacheConfig>, ocsp: Option<CacheConfig>, size: bool, current: Option<int>)
    : Option<int>
  {
    if ocsp.Some? && ocsp.value.enable && CacheField(ocsp.value, size) != 0 then Some(CacheField(ocsp.value, size))
    else if cv.Some? && cv.value.enable && CacheField(cv.value, size) != 0 then Some(CacheField(cv.value, size))
    else current
  }

  /** The revocation-check fields. Both blocks write the same `validateCertEnabled`
      flag, so when OCSP stapling is configured its flag is the one that stays. */
  function CacheFields(s: SecureSocket, tls: TlsSettings): TlsSettings {
    var cv := s.certValidation;
    var ocsp := s.ocspStapling;
    tls.(
      validateCertEnabled :=
        if ocsp.Some? then Some(ocsp.value.enable)
        else if cv.Some? then Some(cv.value.enable)
        else tls.validateCertEnabled,
      cacheSize := CacheValue(cv, ocsp, true, tls.cacheSize),
      cacheValidityPeriod := CacheValue(cv, ocsp, false, tls.cacheValidityPeriod),
      ocspStaplingEnabled := if ocsp.Some? then Some(ocsp.value.enable) else tls.ocspStaplingEnabled)
  }

  /** What every TLS field of the listener holds once setSslConfig succeeds. */
  function ServerTls(s: SecureSocket, host: Option<string>, port: int, names: ParamNames): TlsSettings {
    CacheFields(s, TrustFields(s, IdentityFields(s, NoTls))).(
      scheme := Some(ProtocolHttps),
      sslProtocol := if s.protocol.Some? && IsNotBlank(s.protocol.value.name) then s.protocol.value.name else None,
      tlsStoreType := Some(PkcsStoreType),
      parameters := Some(TlsParameters(s.protocol, s.ciphers, s.shareSession, names)),
      id := Some(GetListenerInterface(host, port)))
  }

  /** The key store / key file part of setSslConfig. */
  method ApplyIdentity(s: SecureSocket, tls: TlsSettings) returns (r: Result<TlsSettings, ConfigError>)
    ensures r.Failure? <==> IdentityError(s).Some?
    ensures r.Failure? ==> r.error == IdentityError(s).value
    ensures r.Success? ==> r.value == IdentityFields(s, tls)
  {
    var t := tls;
    var ks := s.keyStore;
    if ks.Some? && IsNotBlank(s.keyFile) {
      return Failure(BothKeyStoreAndKeyFile);
    } else if ks.None? && (IsBlank(s.keyFile) || IsBlank(s.certFile)) {
      return Failure(MissingServerIdentity);
    }
    if ks.Some? {
      if IsBlank(ks.value.path) {
        return Failure(MissingKeyStoreFile);
      }
      if IsBlank(ks.value.password) {
        return Failure(MissingKeyStorePassword);
      }
      t := t.(keyStoreFile := ks.value.path, keyStorePass := ks.value.password);
    } else {
      t := t.(serverKeyFile := s.keyFile, serverCertificates := s.certFile);
      if IsNotBlank(s.keyPassword) {
        t := t.(serverKeyPassword := s.keyPassword);
      }
    }
    return Success(t);
  }

  /** The client-verification and trust part of setSslConfig. */
  method ApplyTrust(s: SecureSocket, tls: TlsSettings) returns (r: Result<TlsSettings, ConfigError>)
    ensures r.Failure? <==> TrustError(s).Some?
    ensures r.Failure? ==> r.error == TrustError(s).value
    ensures r.Success? ==> r.value == TrustFields(s, tls)
  {
    var t := tls.(verifyClient := s.sslVerifyClient);
    var ts := s.trustStore;
    if ts.None? && IsNotBlank(s.sslVerifyClient) && IsBlank(s.trustedCertFile) {
      return Failure(MissingMutualSslTrust);
    }
    if ts.Some? {
      if IsBlank(ts.value.path) && IsNotBlank(s.sslVerifyClient) {
        return Failure(MissingTrustStoreFile);
      }
      if IsBlank(ts.value.password) && IsNotBlank(s.sslVerifyClient) {
        return Failure(MissingTrustStorePassword);
      }
      t := t.(trustStoreFile := ts.value.path, trustStorePass := ts.value.password);
    } else if IsNotBlank(s.trustedCertFile) {
      t := t.(serverTrustCertificates := s.trustedCertFile);
    }
    return Success(t);
  }

  /** Applies one enabled cache block (certificate validation or OCSP stapling). */
  method ApplyCache(tls: TlsSettings, c: CacheConfig) returns (r: Result<TlsSettings, ConfigError>)
    ensures r.Failure? <==> CacheOverflows(Some(c))
    ensures r.Failure? ==> r.error == IntegerOverflow
    ensures r.Success? ==> r.value == tls.(
      cacheSize := CacheValue(None, Some(c), true, tls.cacheSize),
      cacheValidityPeriod := CacheValue(None, Some(c), false, tls.cacheValidityPeriod))
  {
    var t := tls;
    if c.enable {
      if c.cacheSize != 0 {
        var size := ToIntExact(c.cacheSize);
        if size.None? {
          return Failure(IntegerOverflow);
        }
        t := t.(cacheSize := size);
      }
      if c.cacheValidityPeriod != 0 {
        var period := ToIntExact(c.cacheValidityPeriod);
        if period.None? {
          return Failure(IntegerOverflow);
        }
        t := t.(cacheValidityPeriod := period);
      }
    }
    return Success(t);
  }

  /** The certificate-validation and OCSP-stapling part of setSslConfig. */
  method ApplyCaches(s: SecureSocket, tls: TlsSettings) returns (r: Result<TlsSettings, ConfigError>)
    ensures r.Failure? <==> CacheOverflows(s.certValidation) || CacheOverflows(s.ocspStapling)
    ensures r.Failure? ==> r.error == IntegerOverflow
    ensures r.Success? ==> r.value == CacheFields(s, tls)
  {
    var t := tls;
    if s.certValidation.Some? {
      t := t.(validateCertEnabled := Some(s.certValidation.value.enable));
      var applied := ApplyCache(t, s.certValidation.value);
      if applied.Failure? {
        return Failure(applied.error);
      }
      t := applied.value;
    }
    if s.ocspStapling.Some? {
      t := t.(ocspStaplingEnabled := Some(s.ocspStapling.value.enable));
      t := t.(validateCertEnabled := Some(s.ocspStapling.value.enable));
      var applied := ApplyCache(t, s.ocspStapling.value);
      if applied.Failure? {
        return Failure(applied.error);
      }
      t := applied.value;
    }
    return Success(t);
  }

  /** setSslConfig, shared by WebSocketUtil and InitEndpoint: the two differ only in
      the parameter names, passed as `names`. */
  method SetSslConfig(s: SecureSocket, cfg: ListenerConfiguration, names: ParamNames)
    returns (r: Result<ListenerConfiguration, ConfigError>)
    requires cfg.port.Some? && cfg.tls == NoTls
    ensures r.Failure? <==> ServerSslError(s).Some?
    ensures r.Failure? ==> r.error == ServerSslError(s).value
    ensures r.Success? ==> r.value == cfg.(tls := ServerTls(s, cfg.host, cfg.port.value, names))
  {
    var tls := cfg.tls.(scheme := Some(ProtocolHttps));
    var identity := ApplyIdentity(s, tls);
    if identity.Failure? {
      return Failure(identity.error);
    }
    var trust := ApplyTrust(s, identity.value);
    if trust.Failure? {
      return Failure(trust.error);
    }
    tls := trust.value;
    var serverParamList: seq<Parameter> := [];
    if s.protocol.Some? {
      if s.protocol.value.versions != [] {
        serverParamList := serverParamList + [Parameter(names.enabledProtocols, Join(s.protocol.value.versions, ","))];
      }
      if IsNotBlank(s.protocol.value.name) {
        tls := tls.(sslProtocol := s.protocol.value.name);
      }
    }
    if s.ciphers != [] {
      serverParamList := serverParamList + [Parameter(names.ciphers, Join(s.ciphers, ","))];
    }
    assert serverParamList == ProtocolParameter(s.protocol, names) + CipherParameter(s.ciphers, names);
    var caches := ApplyCaches(s, tls);
    if caches.Failure? {
      return Failure(caches.error);
    }
    tls := caches.value;
    tls := tls.(tlsStoreType := Some(PkcsStoreType));
    serverParamList := serverParamList + [Parameter(names.sessionCreation, BoolString(s.shareSession))];
    if serverParamList != [] {
      tls := tls.(parameters := Some(serverParamList));
    }
    tls := tls.(id := Some(GetListenerInterface(cfg.host, cfg.port.value)));
    return Success(cfg.(tls := tls));
  }

  /** The rules setSslConfig enforces, read off its specification. */
  lemma ServerTlsRules(s: SecureSocket, host: Option<string>, port: int, names: ParamNames)
    ensures s.keyStore.Some? && IsNotBlank(s.keyFile) ==> ServerSslError(s) == Some(BothKeyStoreAndKeyFile)
    ensures (IsNotBlank(s.sslVerifyClient) && s.trustStore.None? && IsBlank(s.trustedCertFile)
             && IdentityError(s).None?) ==> ServerSslError(s) == Some(MissingMutualSslTrust)
    ensures ServerSslError(s).None? ==> var t := ServerTls(s, host, port, names);
      && (s.keyStore.Some? ==> IsNotBlank(t.keyStoreFile) && IsNotBlank(t.keyStorePass) && t.serverKeyFile.None?)
      && (s.keyStore.None? ==> IsNotBlank(t.serverKeyFile) && IsNotBlank(t.serverCertificates))
      && (s.trustStore.Some? ==> t.serverTrustCertificates.None?)
      && (s.ocspStapling.Some? ==> t.validateCertEnabled == Some(s.ocspStapling.value.enable))
      && t.parameters.Some? && t.parameters.value != []
      && t.tlsStoreType == Some(PkcsStoreType) && t.scheme == Some(ProtocolHttps)
  {
  }

  // ---------------------------------------------------------------------------
  // The whole listener (getListenerConfig).

  /** The first rule broken, in the order port, keep-alive, request limits, idle timeout, TLS. */
  function ListenerError(c: EndpointConfig): Option<ConfigError> {
    if c.port == 0 then Some(PortNotDefined)
    else if !InInt32(c.port) then Some(IntegerOverflow)
    else if GetKeepAliveConfig(c.keepAlive).Failure? then Some(GetKeepAliveConfig(c.keepAlive).error)
    else if c.requestLimits.Some? && RequestLimitError(c.requestLimits.value).Some?
    then RequestLimitError(c.requestLimits.value)
    else if c.timeoutMillis < 0 then Some(NegativeIdleTimeout)
    else if !InInt32(c.timeoutMillis) then Some(IntegerOverflow)
    else if c.secureSocket.Some? then ServerSslError(c.secureSocket.value)
    else None
  }

  /** What every field of the listener configuration holds when no rule is broken. */
  function ExpectedListener(c: EndpointConfig, env: Env, names: ParamNames): ListenerConfiguration
    requires ListenerError(c).None?
  {
    var host := Some(ListenerHost(c.host, env));
    var l := c.requestLimits;
    ListenerConfiguration(
      host := host,
      port := Some(c.port),
      keepAlive := Some(GetKeepAliveConfig(c.keepAlive).value),
      sizeValidation :=
        if l.Some? then SizeValidation(
          Limit(l.value.maxUriLength, None), Limit(l.value.maxHeaderSize, None), Limit(l.value.maxEntityBodySize, None))
        else DefaultSizeValidation,
      socketIdleTimeout := Some(c.timeoutMillis),
      version := c.httpVersion,
      serverHeader := Some(ServerName(env)),
      pipeliningNeeded := if c.secureSocket.None? then Some(true) else None,
      pipeliningLimit := if c.secureSocket.None? then Some(c.pipeliningLimit) else None,
      tls := if c.secureSocket.Some? then ServerTls(c.secureSocket.value, host, c.port, names) else NoTls)
  }

  /** getListenerConfig. */
  method GetListenerConfig(c: EndpointConfig, env: Env, names: ParamNames)
    returns (r: Result<ListenerConfiguration, ConfigError>)
    ensures r.Failure? <==> ListenerError(c).Some?
    ensures r.Failure? ==> r.error == ListenerError(c).value
    ensures r.Success? ==> ListenerError(c).None? && r.value == ExpectedListener(c, env, names)
    // the rules the source states, spelled out
    ensures c.port == 0 ==> r == Failure(PortNotDefined)
    ensures c.port != 0 && InInt32(c.port) && GetKeepAliveConfig(c.keepAlive).Failure?
      ==> r == Failure(InvalidKeepAlive(c.keepAlive))
    ensures r.Success? ==> r.value.host == Some(ListenerHost(c.host, env)) && r.value.port == Some(c.port)
    ensures r.Success? ==> 0 <= c.timeoutMillis && r.value.socketIdleTimeout == Some(c.timeoutMillis)
    ensures r.Success? && c.secureSocket.Some? ==> r.value.pipeliningNeeded.None? && r.value.pipeliningLimit.None?
    ensures r.Success? && c.secureSocket.None?
      ==> r.value.pipeliningNeeded == Some(true) && r.value.pipeliningLimit == Some(c.pipeliningLimit)
  {
    var cfg := NewListenerConfiguration;
    if c.host.None? || TrimsToEmpty(c.host.value) {
      cfg := cfg.(host := Some(DefaultHost(env)));
    } else {
      cfg := cfg.(host := c.host);
    }
    if c.port == 0 {
      return Failure(PortNotDefined);
    }
    var port := ToIntExact(c.port);
    if port.None? {
      return Failure(IntegerOverflow);
    }
    cfg := cfg.(port := port);
    var keepAlive := GetKeepAliveConfig(c.keepAlive);
    if keepAlive.Failure? {
      return Failure(keepAlive.error);
    }
    cfg := cfg.(keepAlive := Some(keepAlive.value));
    if c.requestLimits.Some? {
      var limits := SetRequestSizeValidationConfig(c.requestLimits.value, cfg.sizeValidation);
      if limits.Failure? {
        return Failure(limits.error);
      }
      cfg := cfg.(sizeValidation := limits.value);
    }
    if c.timeoutMillis < 0 {
      return Failure(NegativeIdleTimeout);
    }
    var idle := ToIntExact(c.timeoutMillis);
    if idle.None? {
      return Failure(IntegerOverflow);
    }
    cfg := cfg.(socketIdleTimeout := idle);
    if c.httpVersion.Some? {
      cfg := cfg.(version := c.httpVersion);
    }
    cfg := cfg.(serverHeader := Some(ServerName(env)));
    if c.secureSocket.Some? {
      r := SetSslConfig(c.secureSocket.value, cfg, names);
      return;
    }
    cfg := cfg.(pipeliningNeeded := Some(true));
    cfg := cfg.(pipeliningLimit := Some(c.pipeliningLimit));
    return Success(cfg);
  }

  // ---------------------------------------------------------------------------
  // Client TLS (populateSSLConfiguration).

  /** The first client TLS rule broken. */
  function ClientSslError(s: ClientSecureSocket): Option<ConfigError> {
    if s.trustStore.Some? && IsNotBlank(s.trustedCertFile) then Some(BothTrustStoreAndTrustCerts)
    else if s.keyStore.Some? && IsNotBlank(s.keyFile) then Some(ClientBothKeyStoreAndKeyFile)
    else if IsNotBlank(s.keyFile) && IsBlank(s.certFile) then Some(MissingClientCertFile)
    else None
  }

  /** A setter that is only called with a non-blank value. */
  function IfNotBlank(v: Option<string>, current: Option<string>): Option<string> {
    if IsNotBlank(v) then v else current
  }

  /** A cache value narrowed by the `(int)` cast and applied only when non-zero. */
  function IfNonZero(v: int, current: Option<int>): Option<int> {
    if ToInt32(v) != 0 then Some(ToInt32(v)) else current
  }

  /** The trust fields: a trust store's non-blank path and password, otherwise
      non-blank trusted certificates. */
  function ClientTrustFields(s: ClientSecureSocket, ssl: SslConfiguration): SslConfiguration {
    var ts := s.trustStore;
    ssl.(
      trustStoreFile := if ts.Some? then IfNotBlank(ts.value.path, ssl.trustStoreFile) else ssl.trustStoreFile,
      trustStorePass := if ts.Some? then IfNotBlank(ts.value.password, ssl.trustStorePass) else ssl.trustStorePass,
      clientTrustCertificates :=
        if ts.None? then IfNotBlank(s.trustedCertFile, ssl.clientTrustCertificates) else ssl.clientTrustCertificates)
  }

  /** The key fields: a key store's non-blank path and password, otherwise a
      non-blank key file with its certificate file and its non-blank password. */
  function ClientKeyFields(s: ClientSecureSocket, ssl: SslConfiguration): SslConfiguration {
    var ks := s.keyStore;
    var useKeyFile := ks.None? && IsNotBlank(s.keyFile);
    ssl.(
      keyStoreFile := if ks.Some? then IfNotBlank(ks.value.path, ssl.keyStoreFile) else ssl.keyStoreFile,
      keyStorePass := if ks.Some? then IfNotBlank(ks.value.password, ssl.keyStorePass) else ssl.keyStorePass,
      clientKeyFile := if useKeyFile then s.keyFile else ssl.clientKeyFile,
      clientCertificates := if useKeyFile then s.certFile else ssl.clientCertificates,
      clientKeyPassword := if useKeyFile then IfNotBlank(s.keyPassword, ssl.clientKeyPassword) else ssl.clientKeyPassword)
  }

  /** The fields populateSSLConfiguration sets after the trust and key material: the
      protocol, certificate validation, OCSP stapling, host name verification and the
      parameter list. */
  function ClientOptionFields(s: ClientSecureSocket, names: ParamNames, ssl: SslConfiguration): SslConfiguration {
    var cv := s.certValidation;
    ssl.(
      sslProtocol := if s.protocol.Some? then IfNotBlank(s.protocol.value.name, ssl.sslProtocol) else ssl.sslProtocol,
      validateCertEnabled := if cv.Some? then Some(cv.value.enable) else ssl.validateCertEnabled,
      cacheValidityPeriod := if cv.Some? then IfNonZero(cv.value.cacheValidityPeriod, ssl.cacheValidityPeriod)
                             else ssl.cacheValidityPeriod,
      cacheSize := if cv.Some? then IfNonZero(cv.value.cacheSize, ssl.cacheSize) else ssl.cacheSize,
      ocspStaplingEnabled := Some(s.ocspStapling),
      hostNameVerificationEnabled := Some(s.hostNameVerification),
      parameters := Some(TlsParameters(s.protocol, s.ciphers, s.shareSession, names)))
  }

  /** What the client SslConfiguration holds once populateSSLConfiguration succeeds;
      fields the record leaves blank keep what the configuration already held. */
  function ClientSsl(ssl: SslConfiguration, s: ClientSecureSocket, names: ParamNames): SslConfiguration {
    ClientOptionFields(s, names, ClientKeyFields(s, ClientTrustFields(s, ssl)))
  }

  /** The trust part of populateSSLConfiguration. */
  method ApplyClientTrust(s: ClientSecureSocket, ssl: SslConfiguration) returns (r: Result<SslConfiguration, ConfigError>)
    ensures r.Failure? <==> s.trustStore.Some? && IsNotBlank(s.trustedCertFile)
    ensures r.Failure? ==> r.error == BothTrustStoreAndTrustCerts
    ensures r.Success? ==> r.value == ClientTrustFields(s, ssl)
  {
    var config := ssl;
    var ts := s.trustStore;
    if ts.Some? && IsNotBlank(s.trustedCertFile) {
      return Failure(BothTrustStoreAndTrustCerts);
    }
    if ts.Some? {
      if IsNotBlank(ts.value.path) {
        config := config.(trustStoreFile := ts.value.path);
      }
      if IsNotBlank(ts.value.password) {
        config := config.(trustStorePass := ts.value.password);
      }
    } else if IsNotBlank(s.trustedCertFile) {
      config := config.(clientTrustCertificates := s.trustedCertFile);
    }
    return Success(config);
  }

  /** The key part of populateSSLConfiguration. */
  method ApplyClientKeys(s: ClientSecureSocket, ssl: SslConfiguration) returns (r: Result<SslConfiguration, ConfigError>)
    ensures r.Failure? <==> (s.keyStore.Some? && IsNotBlank(s.keyFile)) || (IsNotBlank(s.keyFile) && IsBlank(s.certFile))
    ensures r.Failure? ==> r.error == (if s.keyStore.Some? then ClientBothKeyStoreAndKeyFile else MissingClientCertFile)
    ensures r.Success? ==> r.value == ClientKeyFields(s, ssl)
  {
    var config := ssl;
    var ks := s.keyStore;
    if ks.Some? && IsNotBlank(s.keyFile) {
      return Failure(ClientBothKeyStoreAndKeyFile);
    } else if IsNotBlank(s.keyFile) && IsBlank(s.certFile) {
      return Failure(MissingClientCertFile);
    }
    if ks.Some? {
      if IsNotBlank(ks.value.path) {
        config := config.(keyStoreFile := ks.value.path);
      }
      if IsNotBlank(ks.value.password) {
        config := config.(keyStorePass := ks.value.password);
      }
    } else if IsNotBlank(s.keyFile) {
      config := config.(clientKeyFile := s.keyFile);
      config := config.(clientCertificates := s.certFile);
      if IsNotBlank(s.keyPassword) {
        config := config.(clientKeyPassword := s.keyPassword);
      }
    }
    return Success(config);
  }

  /** The certificate-validation part of populateSSLConfiguration: the cache values
      are narrowed by an `(int)` cast and applied when non-zero, even when validation
      is disabled. */
  method ApplyClientValidation(cv: CacheConfig, ssl: SslConfiguration) returns (r: SslConfiguration)
    ensures r == ssl.(
      validateCertEnabled := Some(cv.enable),
      cacheValidityPeriod := IfNonZero(cv.cacheValidityPeriod, ssl.cacheValidityPeriod),
      cacheSize := IfNonZero(cv.cacheSize, ssl.cacheSize))
  {
    var cacheSize := ToInt32(cv.cacheSize);
    var cacheValidityPeriod := ToInt32(cv.cacheValidityPeriod);
    r := ssl.(validateCertEnabled := Some(cv.enable));
    if cacheValidityPeriod != 0 {
      r := r.(cacheValidityPeriod := Some(cacheValidityPeriod));
    }
    if cacheSize != 0 {
      r := r.(cacheSize := Some(cacheSize));
    }
  }

  /** populateSSLConfiguration: fills a client SslConfiguration from the secureSocket record. */
  method PopulateSslConfiguration(ssl: SslConfiguration, s: ClientSecureSocket, names: ParamNames)
    returns (r: Result<SslConfiguration, ConfigError>)
    ensures r.Failure? <==> ClientSslError(s).Some?
    ensures r.Failure? ==> r.error == ClientSslError(s).value
    ensures r.Success? ==> r.value == ClientSsl(ssl, s, names)
  {
    var trust := ApplyClientTrust(s, ssl);
    if trust.Failure? {
      return Failure(trust.error);
    }
    var keys := ApplyClientKeys(s, trust.value);
    if keys.Failure? {
      return Failure(keys.error);
    }
    var config := ApplyClientOptions(s, names, keys.value);
    return Success(config);
  }

  /** The protocol, validation, stapling, host name and parameter part of
      populateSSLConfiguration. */
  method ApplyClientOptions(s: ClientSecureSocket, names: ParamNames, ssl: SslConfiguration)
    returns (config: SslConfiguration)
    ensures config == ClientOptionFields(s, names, ssl)
  {
    var clientParams: seq<Parameter> := [];
    config := ssl;
    if s.protocol.Some? {
      if |s.protocol.value.versions| > 0 {
        clientParams := clientParams + [Parameter(names.enabledProtocols, Join(s.protocol.value.versions, ","))];
      }
      if IsNotBlank(s.protocol.value.name) {
        config := config.(sslProtocol := s.protocol.value.name);
      }
    }
    if s.certValidation.Some? {
      config := ApplyClientValidation(s.certValidation.value, config);
    }
    config := config.(ocspStaplingEnabled := Some(s.ocspStapling));
    config := config.(hostNameVerificationEnabled := Some(s.hostNameVerification));
    if |s.ciphers| > 0 {
      clientParams := clientParams + [Parameter(names.ciphers, Join(s.ciphers, ","))];
    }
    assert clientParams == ProtocolParameter(s.protocol, names) + CipherParameter(s.ciphers, names);
    clientParams := clientParams + [Parameter(names.sessionCreation, BoolString(s.shareSession))];
    if clientParams != [] {
      config := config.(parameters := Some(clientParams));
    }
  }

  /** The rules populateSSLConfiguration enforces, read off its specification. */
  lemma ClientSslRules(ssl: SslConfiguration, s: ClientSecureSocket, names: ParamNames)
    ensures s.trustStore.Some? && IsNotBlank(s.trustedCertFile) ==> ClientSslError(s) == Some(BothTrustStoreAndTrustCerts)
    ensures ClientSslError(s).None? ==> var c := ClientSsl(ssl, s, names);
      && (s.trustStore.Some? && IsBlank(s.trustStore.value.path) ==> c.trustStoreFile == ssl.trustStoreFile)
      && (s.trustStore.Some? ==> c.clientTrustCertificates == ssl.clientTrustCertificates)
      && (s.certValidation.Some? && ToInt32(s.certValidation.value.cacheSize) != 0
          ==> c.cacheSize == Some(ToInt32(s.certValidation.value.cacheSize)))
      && c.ocspStaplingEnabled == Some(s.ocspStapling)
      && c.parameters.Some? && c.parameters.value != []
  {
  }

  // ---------------------------------------------------------------------------
  // Errors as values.

  /** A throwable as the model sees it: only its message, which may be null. */
  datatype Throwable = Throwable(message: Option<string>)

  /** What a transport ChannelFuture reports when it completes. */
  datatype ChannelFutureResult = ChannelFutureResult(isSuccess: bool, cause: Option<Throwable>)

  /** How a CallableUnitCallback is completed: success with the values returned to the
      Ballerina caller (an error value's message, or nothing), or failure with an error. */
  datatype Completion = NotifySuccess(errorValue: Option<string>) | NotifyFailure(error: string)

  /** handleWebSocketCallback: a push always completes with notifySuccess; an error
      value is returned only when the future failed and carries a cause. */
  function HandleWebSocketCallback(f: ChannelFutureResult): (r: Completion)
    ensures r.NotifySuccess?
    ensures r.errorValue.Some? <==> !f.isSuccess && f.cause.Some?
    ensures r.errorValue.Some? ==> r.errorValue.value == GetError(f.cause.value.message)
  {
    if !f.isSuccess && f.cause.Some? then NotifySuccess(Some(GetError(f.cause.value.message)))
    else NotifySuccess(None)
  }

  /** How the handshake listener's onError ends: it completes the waiting caller, or,
      when nobody waits, throws a BallerinaConnectorException. */
  datatype HandshakeFailure = Completed(completion: Completion) | Thrown(message: string)

  /** Java's rendering of a possibly-null string in a concatenation. */
  function JavaConcatText(s: Option<string>): string {
    s.GetOr("null")
  }

  /** The onError branch of handleHandshake. */
  function HandshakeError(callerWaiting: bool, t: Throwable): (r: HandshakeFailure)
    ensures callerWaiting <==> r.Completed?
    ensures r.Completed? ==> r.completion == NotifyFailure("Unable to complete handshake:" + JavaConcatText(t.message))
    ensures r.Thrown? ==> r.message == "Unable to complete handshake"
  {
    if callerWaiting then Completed(NotifyFailure("Unable to complete handshake:" + JavaConcatText(t.message)))
    else Thrown("Unable to complete handshake")
  }
}
