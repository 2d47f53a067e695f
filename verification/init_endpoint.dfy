/** The WebSocket listener's `init` native (serviceendpoint/InitEndpoint.java): it
    builds its own, smaller listener configuration — no keep-alive, no request
    limits, HTTP version pinned to 1.1, pipelining switched off — and turns any
    exception into an error value returned to the Ballerina caller. */
module InitEndpoint {
  import opened Wrappers
  import opened JavaText
  import opened WebSocketUtil

  /** The parameter names this class uses for the TLS parameter list. */
  const InitParamNames: ParamNames := ParamNames("sslEnabledProtocols", "ciphers", "shareSession")

  const PinnedHttpVersion: string := "1.1"

  /** The first rule broken: port, idle timeout, then TLS. */
  function InitListenerError(c: EndpointConfig): Option<ConfigError> {
    if c.port == 0 then Some(PortNotDefined)
    else if !InInt32(c.port) then Some(IntegerOverflow)
    else if c.timeoutMillis < 0 then Some(NegativeIdleTimeout)
    else if !InInt32(c.timeoutMillis) then Some(IntegerOverflow)
    else if c.secureSocket.Some? then ServerSslError(c.secureSocket.value)
    else None
  }

  /** What the configuration holds when no rule is broken. */
  function ExpectedInitListener(c: EndpointConfig, env: Env): ListenerConfiguration {
    var host := Some(ListenerHost(c.host, env));
    NewListenerConfiguration.(
      host := host,
      port := Some(c.port),
      socketIdleTimeout := Some(c.timeoutMillis),
      version := Some(PinnedHttpVersion),
      serverHeader := Some(ServerName(env)),
      pipeliningNeeded := if c.secureSocket.None? then Some(false) else None,
      tls := if c.secureSocket.Some? then ServerTls(c.secureSocket.value, host, c.port, InitParamNames) else NoTls)
  }

  /** getListenerConfig of the init native. */
  method GetListenerConfig(c: EndpointConfig, env: Env) returns (r: Result<ListenerConfiguration, ConfigError>)
    ensures r.Failure? <==> InitListenerError(c).Some?
    ensures r.Failure? ==> r.error == InitListenerError(c).value
    ensures r.Success? ==> r.value == ExpectedInitListener(c, env)
  {
    var cfg := NewListenerConfiguration;
    if c.host.None? || TrimsToEmpty(c.host.value) {
      cfg := cfg.(host := Some(DefaultHost(env)));
    } else {
      cfg := cfg.(host := c.host);
    }
    if c.port == 0 {
      return Failure(PortNotDefined);
    }
    var port := ToIntExact(c.port);
    if port.None? {
      return Failure(IntegerOverflow);
    }
    cfg := cfg.(port := port);
    if c.timeoutMillis < 0 {
      return Failure(NegativeIdleTimeout);
    }
    var idle := ToIntExact(c.timeoutMillis);
    if idle.None? {
      return Failure(IntegerOverflow);
    }
    cfg := cfg.(socketIdleTimeout := idle);
    cfg := cfg.(version := Some(PinnedHttpVersion));
    cfg := cfg.(serverHeader := Some(ServerName(env)));
    if c.secureSocket.Some? {
      r := SetSslConfig(c.secureSocket.value, cfg, InitParamNames);
      return;
    }
    cfg := cfg.(pipeliningNeeded := Some(false));
    return Success(cfg);
  }

  /** What `init` leaves behind: a listener built from the configuration, or an error
      value (the message of the exception, run through getError) handed back. */
  datatype InitOutcome = Initialised(config: ListenerConfiguration) | ErrorReturned(message: string)

  /** `execute`: nothing escapes; every configuration error comes back as a value. */
  method Execute(c: EndpointConfig, env: Env) returns (r: InitOutcome)
    ensures r.ErrorReturned? <==> InitListenerError(c).Some?
    ensures r.ErrorReturned? ==> r.message == InitListenerError(c).value.Message()
    ensures r.Initialised? ==> r.config == ExpectedInitListener(c, env)
  {
    var built := GetListenerConfig(c, env);
    if built.Failure? {
      return ErrorReturned(GetError(Some(built.error.Message())));
    }
    return Initialised(built.value);
  }

  /** The init native and the module's own getListenerConfig agree on every endpoint
      without TLS, keep-alive or request limits except for the pinned version and the
      pipelining flag, and reject exactly the same such endpoints. */
  lemma {:induction false} InitAgreesWithUtil(c: EndpointConfig, env: Env, names: ParamNames)
    requires c.secureSocket.None? && c.requestLimits.None? && c.keepAlive == "AUTO"
    ensures InitListenerError(c) == ListenerError(c)
    ensures InitListenerError(c).None? ==>
      ExpectedInitListener(c, env).(version := c.httpVersion, pipeliningNeeded := Some(true),
                                    pipeliningLimit := Some(c.pipeliningLimit), keepAlive := Some(Auto))
      == ExpectedListener(c, env, names)
  {
    assert GetKeepAliveConfig(c.keepAlive) == Success(Auto);
  }
}
