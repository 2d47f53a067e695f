# Ballerina runtime and tooling pieces, modelled in Dafny

This project models a handful of independent pieces of the Ballerina platform and proves
what each promises.

- **WebSocket listener** (WebSocketUtil, serviceendpoint/InitEndpoint, WebSocketService,
  WebSocketServerConnectorListener). It covers:
  - how an endpoint configuration becomes a listener configuration, with request size
    limits, keep-alive and server TLS;
  - how a client secure-socket record becomes an SSL configuration;
  - how a service is indexed, with its resources by name, sub-protocols, idle timeout,
    frame size and upgrade path;
  - how the server connector listener registers connections on a successful handshake,
    dispatches frames to them and reads each connection's first frame once.
- **CLI argument parsing** (runtime internal/cli Option and CliSpec). The entry function's
  arguments are split into a record of `--name[=value]` options and operands, then laid
  out as the main function's arguments.
- **Editor connector action** (editor ast/connector-action.js). An AST node whose children
  hold arguments, variable declarations and a return-type model; it has operations to add
  and remove each kind in place.
- **JMS connector** (connection, consumer and destination init, JmsUtils):
  - the WSO2 message-broker preprocessing of connection parameters and their renaming;
  - the choice of consumer factory;
  - destination creation;
  - the message and destination helpers.
- **ModuleDescriptor**: a module's identity, its compilation id, equality and hash code.
- **BallerinaVariableSymbol** and its builder.

Each source file is one module:

| file | module |
|---|---|
| `websocket_util.dfy` | `WebSocketUtil` |
| `init_endpoint.dfy` | `InitEndpoint` |
| `websocket_service.dfy` | `WebSocketServices` |
| `connector_listener.dfy` | `WebSocketConnectorListener` |
| `cli_option.dfy` | `CliOptions` |
| `cli_spec.dfy` | `CliSpecs` |
| `connector_action.dfy` | `ConnectorActions` |
| `jms_utils.dfy` | `JmsUtil` |
| `jms_destination.dfy` | `JmsDestinations` |
| `jms_consumer.dfy` | `JmsConsumers` |
| `jms_connection.dfy` | `JmsConnections` |
| `module_descriptor.dfy` | `ModuleDescriptors` |
| `variable_symbol.dfy` | `VariableSymbols` |

Two shared modules support them. `wrappers.dfy` holds `Option` and `Result`. `java_text.dfy`
holds the Java string and integer behaviour the code relies on: `isBlank`,
`trim().isEmpty()`, `equalsIgnoreCase`, 32-bit truncation and `Math.toIntExact`.

How the source's shapes are modelled:
- Code that updates objects in place is modelled by classes:
  - the connection listener;
  - the CLI `Option` and `CliSpec`;
  - the connector action;
  - the JMS parameter map;
  - the variable-symbol builder, with its lists as shared `JList` objects.
- Each method of those classes is proved against a specification function. Its partner
  properties are lemmas about that function.
- Configuration builders that set fields one by one are methods over a datatype value.
  They are proved equal to a declarative description.
- Java `null` is `Option.None`.
- A thrown exception is a `Result.Failure` carrying the message the source builds.

## Model

| member | source | states |
|---|---|---|
| WebSocketUtil.GetListenerInterface | stdlib/websocket/src/main/java/org/ballerinalang/net/websocket/WebSocketUtil.java:649-652 | the interface id splits back into the host (0.0.0.0 when none is given), a colon and the port's decimal text |
| WebSocketUtil.ListenerInterfaceDistinguishesPorts | stdlib/websocket/src/main/java/org/ballerinalang/net/websocket/WebSocketUtil.java:649-652 | on one host, two ports get the same listener id only when they are the same port |
| WebSocketUtil.GetKeepAliveConfig | stdlib/websocket/src/main/java/org/ballerinalang/net/websocket/WebSocketUtil.java:658-670 | succeeds exactly for AUTO, ALWAYS and NEVER, each mapped to its own mode; any other text is the invalid keep-alive error naming it |
| WebSocketUtil.GetError | stdlib/websocket/src/main/java/org/ballerinalang/net/websocket/WebSocketUtil.java:232-238 | the error message is the throwable's message, or the default message when that is null |
| WebSocketUtil.TlsParametersShape | stdlib/websocket/src/main/java/org/ballerinalang/net/websocket/WebSocketUtil.java:633-644 | the server TLS parameter list always ends with the session-creation flag, holds one to three entries, and has three exactly when protocols and ciphers are both given |
| WebSocketUtil.SetRequestSizeValidationConfig | stdlib/websocket/src/main/java/org/ballerinalang/net/websocket/WebSocketUtil.java:479-511 | fails exactly when a limit is negative but not -1, or a URI or header limit does not fit 32 bits, reporting the first in URI, header, body order; otherwise every limit that is not -1 replaces the current one and the rest are kept |
| WebSocketUtil.ApplyIdentity | stdlib/websocket/src/main/java/org/ballerinalang/net/websocket/WebSocketUtil.java:536-559 | fails exactly on a key store together with a key file, on no key store without both a key file and a certificate file, or on a key store missing its path or password; otherwise sets the key store or key file fields |
| WebSocketUtil.ApplyTrust | stdlib/websocket/src/main/java/org/ballerinalang/net/websocket/WebSocketUtil.java:560-579 | fails exactly when client verification is requested and the trust material is missing (no trust store and no certificate file, or a trust store without path or password); otherwise sets the trust fields |
| WebSocketUtil.ApplyCache | stdlib/websocket/src/main/java/org/ballerinalang/net/websocket/WebSocketUtil.java:604-632 | a validation cache fails with the integer-overflow error exactly when its size or validity period leaves the 32-bit range; otherwise both are copied |
| WebSocketUtil.ApplyCaches | stdlib/websocket/src/main/java/org/ballerinalang/net/websocket/WebSocketUtil.java:604-632 | certificate validation and OCSP stapling caches together: overflow in either fails, otherwise both are applied in source order |
| WebSocketUtil.SetSslConfig | stdlib/websocket/src/main/java/org/ballerinalang/net/websocket/WebSocketUtil.java:524-647 | the listener's TLS setup fails exactly with the first identity, trust or cache error; otherwise the configuration is the input with the complete server TLS settings |
| WebSocketUtil.ServerTlsRules | stdlib/websocket/src/main/java/org/ballerinalang/net/websocket/WebSocketUtil.java:536-632 | a key store with a key file is rejected; mutual SSL without trust material is rejected; an accepted setup has either key-store or key-file identity, a PKCS12 store type, the https scheme and a non-empty parameter list |
| WebSocketUtil.GetListenerConfig | stdlib/websocket/src/main/java/org/ballerinalang/net/websocket/WebSocketUtil.java:425-477 | port 0 fails with the port error, a bad keep-alive value with its error; on success host, port, idle timeout, keep-alive and request limits come from the endpoint and pipelining is only set without TLS |
| WebSocketUtil.ApplyClientTrust | stdlib/websocket/src/main/java/org/ballerinalang/net/websocket/WebSocketUtil.java:250-264 | a client trust store together with trusted certificates is rejected; otherwise the trust store or the certificates are set |
| WebSocketUtil.ApplyClientKeys | stdlib/websocket/src/main/java/org/ballerinalang/net/websocket/WebSocketUtil.java:265-285 | a client key store with a key file, or a key file without a certificate file, is rejected with its own error; otherwise the key fields are set |
| WebSocketUtil.ApplyClientOptions | stdlib/websocket/src/main/java/org/ballerinalang/net/websocket/WebSocketUtil.java:286-337 | protocol versions, certificate validation, OCSP stapling, host name verification, ciphers and session creation are set as the client secure-socket options say |
| WebSocketUtil.ApplyClientValidation | stdlib/websocket/src/main/java/org/ballerinalang/net/websocket/WebSocketUtil.java:302-314 | certificate validation on the client sets the flag and copies cache size and validity period when they are non-zero |
| WebSocketUtil.PopulateSslConfiguration | stdlib/websocket/src/main/java/org/ballerinalang/net/websocket/WebSocketUtil.java:240-338 | the client SSL configuration fails exactly with the first trust or key error; otherwise it is the input updated with every client TLS setting |
| WebSocketUtil.ClientSslRules | stdlib/websocket/src/main/java/org/ballerinalang/net/websocket/WebSocketUtil.java:250-337 | a trust store with trusted certificates is rejected; an accepted setup keeps the current trust file for a blank trust-store path, keeps cache sizes that are non-zero, records OCSP stapling and has a non-empty parameter list |
| WebSocketUtil.HandleWebSocketCallback | stdlib/websocket/src/main/java/org/ballerinalang/net/websocket/WebSocketUtil.java:191-202 | the callback always completes successfully; it carries an error value exactly when the future failed with a cause, and that value holds the cause's message |
| WebSocketUtil.HandshakeError | stdlib/websocket/src/main/java/org/ballerinalang/net/websocket/WebSocketUtil.java:136-143 | a failed handshake completes the waiting caller with the 'Unable to complete handshake:' error when one waits, and is thrown otherwise |
| InitEndpoint.GetListenerConfig | stdlib/websocket/src/main/java/org/ballerinalang/net/websocket/serviceendpoint/InitEndpoint.java:90-128 | the endpoint init's listener configuration fails exactly on the first invalid setting, and otherwise equals the expected configuration |
| InitEndpoint.Execute | stdlib/websocket/src/main/java/org/ballerinalang/net/websocket/serviceendpoint/InitEndpoint.java:67-88 | init returns an error carrying the configuration error's message exactly when the configuration is invalid, and otherwise stores the expected configuration |
| InitEndpoint.InitAgreesWithUtil | stdlib/websocket/src/main/java/org/ballerinalang/net/websocket/serviceendpoint/InitEndpoint.java:90-128 | without TLS, request limits or keep-alive changes, the endpoint init and the util's listener configuration accept the same endpoints and give the same host, port and timeouts |
| WebSocketServices.GetServiceConfigAnnotation | stdlib/websocket/src/main/java/org/ballerinalang/net/websocket/WebSocketUtil.java:87-95 | the config annotation is the first one found, and there is none exactly when the service has no such annotation |
| WebSocketServices.IndexByNameContents | stdlib/websocket/src/main/java/org/ballerinalang/net/websocket/WebSocketService.java:48-66 | the resource map's keys are exactly the resource names, and each name maps to a resource with that name |
| WebSocketServices.LastResourceWins | stdlib/websocket/src/main/java/org/ballerinalang/net/websocket/WebSocketService.java:48-66 | when two resources share a name, the map keeps the later one |
| WebSocketServices.BuildResourceMap | stdlib/websocket/src/main/java/org/ballerinalang/net/websocket/WebSocketService.java:48-66 | the map built resource by resource equals the by-name index |
| WebSocketServices.FindNegotiableSubProtocols | stdlib/websocket/src/main/java/org/ballerinalang/net/websocket/WebSocketService.java:92-105 | the negotiable sub-protocols are those configured, and none when none are configured |
| WebSocketServices.FindIdleTimeoutInSeconds | stdlib/websocket/src/main/java/org/ballerinalang/net/websocket/WebSocketService.java:107-109 | the idle timeout is a 32-bit value, and the configured one when that fits |
| WebSocketServices.FindMaxFrameSize | stdlib/websocket/src/main/java/org/ballerinalang/net/websocket/WebSocketService.java:111-117 | the maximum frame size is always positive: the configured size when positive after 32-bit truncation, otherwise the default |
| WebSocketServices.FindFullWebSocketUpgradePath | stdlib/websocket/src/main/java/org/ballerinalang/net/websocket/WebSocketService.java:128-140 | fails on a config without a path; a missing config or a blank path gives '/' and the service name, any other path its sanitised form |
| WebSocketServices.NewWebSocketService | stdlib/websocket/src/main/java/org/ballerinalang/net/websocket/WebSocketService.java:48-66 | a service attached to the listener endpoint gets its config, resource map and upgrade path; a service attached elsewhere has no base path |
| WebSocketServices.GetResourceByName | stdlib/websocket/src/main/java/org/ballerinalang/net/websocket/WebSocketService.java:76-78 | a resource is found exactly when its name is in the resource map, and it is the mapped one |
| WebSocketServices.ResourceLookup | stdlib/websocket/src/main/java/org/ballerinalang/net/websocket/WebSocketService.java:76-78 | looking up a name succeeds exactly when some resource has that name, and gives one with that name |
| WebSocketConnectorListener.AfterAccept | stdlib/websocket/src/main/java/org/ballerinalang/net/websocket/WebSocketUtil.java:122-132 | after the handshake, the first frame is read at once exactly when no caller waits and the service has no onOpen resource |
| WebSocketConnectorListener.ServerConnectorListener.Lookup | stdlib/websocket/src/main/java/org/ballerinalang/net/websocket/WebSocketServerConnectorListener.java:52-84 | a connection is found exactly when its channel id is registered, and it is the registered one |
| WebSocketConnectorListener.ServerConnectorListener.constructor | stdlib/websocket/src/main/java/org/ballerinalang/net/websocket/WebSocketServerConnectorListener.java:40-43 | a new listener has no connections and an empty trace |
| WebSocketConnectorListener.ServerConnectorListener.OnHandshake | stdlib/websocket/src/main/java/org/ballerinalang/net/websocket/WebSocketServerConnectorListener.java:46-49 | a handshake request is recorded in the trace with the service's sub-protocols and idle timeout, and changes no connection |
| WebSocketConnectorListener.ServerConnectorListener.ReadFirstFrame | stdlib/websocket/src/main/java/org/ballerinalang/net/websocket/WebSocketUtil.java:204-208 | reading the first frame marks the connection ready and adds one read to its count only |
| WebSocketConnectorListener.ServerConnectorListener.Accept | stdlib/websocket/src/main/java/org/ballerinalang/net/websocket/WebSocketUtil.java:107-133 | an accepted handshake registers the connection under its channel id, not yet reading |
| WebSocketConnectorListener.ServerConnectorListener.HandshakeSucceeded | stdlib/websocket/src/main/java/org/ballerinalang/net/websocket/WebSocketUtil.java:106-133 | a successful handshake registers the connection and then either reads the first frame or hands over to onOpen, in that order |
| WebSocketConnectorListener.ServerConnectorListener.RunAfterAccept | stdlib/websocket/src/main/java/org/ballerinalang/net/websocket/WebSocketUtil.java:122-132 | once the connection is registered, exactly one of: endpoint handed to the waiting caller, onOpen submitted, or first frame read (and the connector marked ready) |
| WebSocketConnectorListener.ServerConnectorListener.OnOpenCompleted | stdlib/websocket/src/main/java/org/ballerinalang/net/websocket/WebSocketUtil.java:147-178 | when onOpen completes, success or failure, the frame reader starts only if it had not started, the connection is marked ready, and a failure then prints the error and terminates the connection with 1011 'Unexpected condition' |
| WebSocketConnectorListener.ServerConnectorListener.ReadIfNotReady | stdlib/websocket/src/main/java/org/ballerinalang/net/websocket/WebSocketUtil.java:157-164 | the frame reader is started exactly when the connector was not ready; afterwards it is ready |
| WebSocketConnectorListener.ServerConnectorListener.TerminateOnFailure | stdlib/websocket/src/main/java/org/ballerinalang/net/websocket/WebSocketUtil.java:166-175 | a failed onOpen prints the error, then terminates the connection with code 1011 and 'Unexpected condition', leaving table and readiness unchanged |
| WebSocketConnectorListener.ServerConnectorListener.OnTextMessage | stdlib/websocket/src/main/java/org/ballerinalang/net/websocket/WebSocketServerConnectorListener.java:52-55 | a text frame is dispatched to the connection registered for its channel, if any |
| WebSocketConnectorListener.ServerConnectorListener.OnBinaryMessage | stdlib/websocket/src/main/java/org/ballerinalang/net/websocket/WebSocketServerConnectorListener.java:58-61 | a binary frame is dispatched to the connection registered for its channel, if any |
| WebSocketConnectorListener.ServerConnectorListener.OnControlMessage | stdlib/websocket/src/main/java/org/ballerinalang/net/websocket/WebSocketServerConnectorListener.java:64-67 | a control frame is dispatched to the connection registered for its channel, if any |
| WebSocketConnectorListener.ServerConnectorListener.OnIdleTimeout | stdlib/websocket/src/main/java/org/ballerinalang/net/websocket/WebSocketServerConnectorListener.java:82-84 | an idle timeout is dispatched to the connection registered for its channel, if any |
| WebSocketConnectorListener.ServerConnectorListener.OnCloseMessage | stdlib/websocket/src/main/java/org/ballerinalang/net/websocket/WebSocketServerConnectorListener.java:70-73 | a close frame is dispatched to the registered connection, which is then removed |
| WebSocketConnectorListener.ServerConnectorListener.OnError | stdlib/websocket/src/main/java/org/ballerinalang/net/websocket/WebSocketServerConnectorListener.java:76-79 | an error is dispatched to the registered connection, which is then removed |
| WebSocketConnectorListener.ReadAtMostOnce | stdlib/websocket/src/main/java/org/ballerinalang/net/websocket/WebSocketUtil.java:97-208 | in any reachable listener state, each connection's first frame is read at most once, and only after the connection was registered |
| CliOptions.DigitValue | bvm/ballerina-runtime/src/main/java/io/ballerina/runtime/internal/cli/Option.java:219-229 | a digit's value is below 36 |
| CliOptions.ParseSigned | bvm/ballerina-runtime/src/main/java/io/ballerina/runtime/internal/cli/Option.java:219-229 | a parsed number lies within the bounds given |
| CliOptions.RemoveHexPrefixes | bvm/ballerina-runtime/src/main/java/io/ballerina/runtime/internal/cli/Option.java:219-229 | removing hex prefixes never lengthens the text |
| CliOptions.GetIntegerValue | bvm/ballerina-runtime/src/main/java/io/ballerina/runtime/internal/cli/Option.java:219-229 | an integer argument parses to a 64-bit value, and an unparsable one gives the invalid-integer error naming it |
| CliOptions.GetByteValue | bvm/ballerina-runtime/src/main/java/io/ballerina/runtime/internal/cli/Option.java:258-273 | a byte argument parses to 0..255; a 32-bit number outside that range gives the out-of-range error, anything else the invalid-byte error |
| CliOptions.GetBValue | bvm/ballerina-runtime/src/main/java/io/ballerina/runtime/internal/cli/Option.java:202-217 | string, int, float, decimal and byte fields are supported, any other type fails as unsupported, and a string field takes the text unchanged |
| CliOptions.NatStringValue | bvm/ballerina-runtime/src/main/java/io/ballerina/runtime/internal/cli/Option.java:219-229 | a natural number's decimal text consists of digits whose value is that number |
| CliOptions.ParseDecimalRoundTrip | bvm/ballerina-runtime/src/main/java/io/ballerina/runtime/internal/cli/Option.java:219-229 | parsing a number's decimal text gives the number back when it lies within the bounds |
| CliOptions.ParseLongDecimalRoundTrip | bvm/ballerina-runtime/src/main/java/io/ballerina/runtime/internal/cli/Option.java:219-229 | parsing the decimal text of any 64-bit number gives it back |
| CliOptions.GetByteValueDecimal | bvm/ballerina-runtime/src/main/java/io/ballerina/runtime/internal/cli/Option.java:258-273 | the byte value of a 32-bit number's decimal text is the number when it lies in 0..255, and the out-of-range error otherwise |
| CliOptions.GetIntegerValueDecimal | bvm/ballerina-runtime/src/main/java/io/ballerina/runtime/internal/cli/Option.java:219-229 | the integer value of a 64-bit number's decimal text is that number |
| CliOptions.HexString | bvm/ballerina-runtime/src/main/java/io/ballerina/runtime/internal/cli/Option.java:219-229 | a hex text is non-empty and made of 0-9 and A-F |
| CliOptions.HexStringValue | bvm/ballerina-runtime/src/main/java/io/ballerina/runtime/internal/cli/Option.java:219-229 | a number's hex text has that number as its base-16 value |
| CliOptions.RemoveHexPrefixesNoX | bvm/ballerina-runtime/src/main/java/io/ballerina/runtime/internal/cli/Option.java:219-229 | text without an 'X' is left as it is by the hex-prefix removal |
| CliOptions.ParseUnsignedDigits | bvm/ballerina-runtime/src/main/java/io/ballerina/runtime/internal/cli/Option.java:219-229 | an unsigned digit string in bounds parses to its value |
| CliOptions.ParseNegativeDigits | bvm/ballerina-runtime/src/main/java/io/ballerina/runtime/internal/cli/Option.java:219-229 | '-' followed by digits parses to minus their value when in bounds |
| CliOptions.DecimalStringNotHex | bvm/ballerina-runtime/src/main/java/io/ballerina/runtime/internal/cli/Option.java:219-229 | a number's decimal text never takes the hex branch |
| CliOptions.UpperHexArgument | bvm/ballerina-runtime/src/main/java/io/ballerina/runtime/internal/cli/Option.java:219-229 | '0x' followed by upper-case hex digits upper-cases to '0X' and the same digits, so takes the hex branch |
| CliOptions.GetIntegerValueHex | bvm/ballerina-runtime/src/main/java/io/ballerina/runtime/internal/cli/Option.java:219-229 | an argument '0x' followed by a number's hex text parses to that number |
| CliOptions.IndexOfEquals | bvm/ballerina-runtime/src/main/java/io/ballerina/runtime/internal/cli/Option.java:275-281 | the index found is that of the first '=', and none is found exactly when there is no '=' |
| CliOptions.NamedArgSplit | bvm/ballerina-runtime/src/main/java/io/ballerina/runtime/internal/cli/Option.java:179-200 | an argument '--name=value' is a named argument whose option name is the name and whose value is the text after the first '=' |
| CliOptions.PutValue | bvm/ballerina-runtime/src/main/java/io/ballerina/runtime/internal/cli/Option.java:179-189 | storing a value sets that field only and keeps the fields found and the operands |
| CliOptions.EnsureArray | bvm/ballerina-runtime/src/main/java/io/ballerina/runtime/internal/cli/Option.java:166-173 | an array field is created empty when missing, kept when already an array, and fails when the field holds a non-array |
| CliOptions.Append | bvm/ballerina-runtime/src/main/java/io/ballerina/runtime/internal/cli/Option.java:166-173 | appending adds the value at the end of that array field and changes no other field |
| CliOptions.Step | bvm/ballerina-runtime/src/main/java/io/ballerina/runtime/internal/cli/Option.java:71-125 | each parsing step that succeeds moves past the current argument |
| CliOptions.FirstMissing | bvm/ballerina-runtime/src/main/java/io/ballerina/runtime/internal/cli/Option.java:143-157 | the key reported is a key listed in the record that was not given and whose type is not a union admitting nil; none is reported exactly when every listed key not given has a nil-admitting union type |
| CliOptions.StepWellFormed | bvm/ballerina-runtime/src/main/java/io/ballerina/runtime/internal/cli/Option.java:71-125 | a parsing step keeps the record well-formed (every field of its declared type) and fails only with CLI errors, never a Java exception |
| CliOptions.HandleBooleanWellFormed | bvm/ballerina-runtime/src/main/java/io/ballerina/runtime/internal/cli/Option.java:127-141 | a boolean flag always succeeds on a well-formed record and keeps it well-formed |
| CliOptions.StoreValueWellFormed | bvm/ballerina-runtime/src/main/java/io/ballerina/runtime/internal/cli/Option.java:159-196 | storing an argument's text keeps the record well-formed and fails only with CLI errors |
| CliOptions.ParseFromWellFormed | bvm/ballerina-runtime/src/main/java/io/ballerina/runtime/internal/cli/Option.java:71-125 | parsing the rest of the arguments keeps the record well-formed and fails only with CLI errors |
| CliOptions.ParseRecordErrors | bvm/ballerina-runtime/src/main/java/io/ballerina/runtime/internal/cli/Option.java:71-157 | parseRecord fails only with CLI errors; its result is well-formed, and every key of the result record that was not given has a nil-admitting union type (fields absent from the record are not checked) |
| CliOptions.PlainArgsAreOperands | bvm/ballerina-runtime/src/main/java/io/ballerina/runtime/internal/cli/Option.java:71-125 | arguments that do not start with '-' all become operands, in order |
| CliOptions.DoubleDashEndsOptions | bvm/ballerina-runtime/src/main/java/io/ballerina/runtime/internal/cli/Option.java:71-125 | after '--' every remaining argument is an operand |
| CliOptions.BooleanFlag | bvm/ballerina-runtime/src/main/java/io/ballerina/runtime/internal/cli/Option.java:127-141 | '--name' for a boolean field sets it to true, marks it found and consumes one argument |
| CliOptions.NoEqualsName | bvm/ballerina-runtime/src/main/java/io/ballerina/runtime/internal/cli/Option.java:275-281 | '--name' without '=' is an option but not a named argument, and its option name is the trimmed name |
| CliOptions.NamedStringOption | bvm/ballerina-runtime/src/main/java/io/ballerina/runtime/internal/cli/Option.java:179-189 | '--name=value' for a string field stores the value, marks it found and consumes one argument |
| CliOptions.TrailingOptionIsOperand | bvm/ballerina-runtime/src/main/java/io/ballerina/runtime/internal/cli/Option.java:71-125 | a trailing '--name' for a field needing a value is kept as an operand and leaves the record unchanged |
| CliOptions.OptionTakesNextArgument | bvm/ballerina-runtime/src/main/java/io/ballerina/runtime/internal/cli/Option.java:92-104 | '--name value' on a string field stores the next argument and consumes both, when that argument is not an option |
| CliOptions.OptionBeforeOptionFails | bvm/ballerina-runtime/src/main/java/io/ballerina/runtime/internal/cli/Option.java:92-104 | an option needing a value that is followed by another option fails with the missing-value error naming the option |
| CliOptions.UnknownOptionFails | bvm/ballerina-runtime/src/main/java/io/ballerina/runtime/internal/cli/Option.java:191-196 | an option naming no field of the record fails with the undefined-parameter error naming it |
| CliOptions.ConfigArgSkipped | bvm/ballerina-runtime/src/main/java/io/ballerina/runtime/internal/cli/Option.java:109-114 | a '-C' argument is skipped without recording anything: alone when it contains '=', together with the next argument otherwise |
| CliOptions.SingleDashFails | bvm/ballerina-runtime/src/main/java/io/ballerina/runtime/internal/cli/Option.java:109-118 | any other argument starting with a single '-' fails with the undefined-parameter error naming the whole argument |
| CliOptions.ArrayOptionState | bvm/ballerina-runtime/src/main/java/io/ballerina/runtime/internal/cli/Option.java:92-99 | after an array option the field holds its earlier items followed by the new value, the name is found, and no other field or operand changes |
| CliOptions.ArrayOptionAppends | bvm/ballerina-runtime/src/main/java/io/ballerina/runtime/internal/cli/Option.java:92-99 | '--name value' on an array field consumes both arguments and yields exactly the array-option state: the converted value appended to the field's array (created empty when absent) |
| CliOptions.BooleanArrayAppendsTrue | bvm/ballerina-runtime/src/main/java/io/ballerina/runtime/internal/cli/Option.java:127-140 | '--name' on an array of booleans appends true, consumes only the option and changes no other field |
| CliOptions.RepeatedArrayOptionAccumulates | bvm/ballerina-runtime/src/main/java/io/ballerina/runtime/internal/cli/Option.java:71-125 | '--name a --name b' on a new array field stores the values of a and b in command-line order |
| CliOptions.CliOption.constructor | bvm/ballerina-runtime/src/main/java/io/ballerina/runtime/internal/cli/Option.java:58-69 | a new option starts with the record given, nothing found and no operands |
| CliOptions.CliOption.GetBArray | bvm/ballerina-runtime/src/main/java/io/ballerina/runtime/internal/cli/Option.java:166-173 | getBArray fails exactly as the array specification does and otherwise leaves the record with that array field |
| CliOptions.CliOption.HandleBoolean | bvm/ballerina-runtime/src/main/java/io/ballerina/runtime/internal/cli/Option.java:127-141 | handleBoolean sets the record and the found fields as the boolean specification says |
| CliOptions.CliOption.StoreValueText | bvm/ballerina-runtime/src/main/java/io/ballerina/runtime/internal/cli/Option.java:159-196 | storing an argument's value changes the state exactly as the store specification says, or reports its error |
| CliOptions.CliOption.ProcessNamedArg | bvm/ballerina-runtime/src/main/java/io/ballerina/runtime/internal/cli/Option.java:179-189 | a named argument's value part is stored as the store specification says, or its error is reported |
| CliOptions.CliOption.ParseOne | bvm/ballerina-runtime/src/main/java/io/ballerina/runtime/internal/cli/Option.java:71-125 | one iteration of the parse loop does what the step specification says |
| CliOptions.CliOption.ValidateRecord | bvm/ballerina-runtime/src/main/java/io/ballerina/runtime/internal/cli/Option.java:143-157 | validation reports the first key of the record, in insertion order, that was not given and whose type does not admit nil, with its error; nothing when there is none |
| CliOptions.CliOption.ParseRecord | bvm/ballerina-runtime/src/main/java/io/ballerina/runtime/internal/cli/Option.java:71-125 | parseRecord's loop reaches exactly the parse specification's state or error, and returns the record |
| CliSpecs.InterleaveAt | bvm/ballerina-runtime/src/main/java/io/ballerina/runtime/internal/cli/CliSpec.java:49-68 | each record parameter is followed by a true marker in the main arguments |
| CliSpecs.ProcessOperands | bvm/ballerina-runtime/src/main/java/io/ballerina/runtime/internal/cli/CliSpec.java:82-88 | the operand slots are as many as the operands and all null |
| CliSpecs.MainArgsShape | bvm/ballerina-runtime/src/main/java/io/ballerina/runtime/internal/cli/CliSpec.java:49-68 | the main arguments start with a null slot, then hold each parameter followed by a true marker: the parsed record first when there is one, then a null for each operand |
| CliSpecs.FirstOptionArg | bvm/ballerina-runtime/src/main/java/io/ballerina/runtime/internal/cli/CliSpec.java:70-80 | the index found is the first option argument, and none exactly when no argument is an option |
| CliSpecs.ParseOperandArgs | bvm/ballerina-runtime/src/main/java/io/ballerina/runtime/internal/cli/CliSpec.java:70-80 | without an option record, any option argument is an error naming the first one; otherwise the arguments are returned unchanged |
| CliSpecs.FillMainArgs | bvm/ballerina-runtime/src/main/java/io/ballerina/runtime/internal/cli/CliSpec.java:49-68 | the array filled holds exactly the main-argument layout |
| CliSpecs.CliSpec.constructor | bvm/ballerina-runtime/src/main/java/io/ballerina/runtime/internal/cli/CliSpec.java:42-47 | the spec keeps its option, operand count, arguments and rest flag |
| CliSpecs.CliSpec.GetMainArgs | bvm/ballerina-runtime/src/main/java/io/ballerina/runtime/internal/cli/CliSpec.java:49-68 | with an option record the main arguments follow the parsed record or its error; without one an option argument is rejected, and otherwise the layout is operands only |
| ConnectorActions.OfKind | modules/editor/web/js/ballerina/ast/connector-action.js:56-102 | filtering children by kind keeps only children of that kind |
| ConnectorActions.OfKindAppend | modules/editor/web/js/ballerina/ast/connector-action.js:56-102 | filtering by kind distributes over concatenation |
| ConnectorActions.Arguments | modules/editor/web/js/ballerina/ast/connector-action.js:56-66 | the arguments are exactly the argument children, in order |
| ConnectorActions.FindLastIndex | modules/editor/web/js/ballerina/ast/connector-action.js:114-130 | the index found is the last child of the kind, or -1 when there is none |
| ConnectorActions.Insert | modules/editor/web/js/ballerina/ast/connector-action.js:114-130 | insertion grows the children by one and puts the node at the index |
| ConnectorActions.InsertOfKind | modules/editor/web/js/ballerina/ast/connector-action.js:114-130 | inserting a node adds it to its own kind's children at the matching position and changes no other kind |
| ConnectorActions.NoneAfter | modules/editor/web/js/ballerina/ast/connector-action.js:114-130 | there is no child of a kind after the last one of that kind |
| ConnectorActions.VariableDeclarationSlot | modules/editor/web/js/ballerina/ast/connector-action.js:114-130 | the insertion index for a variable declaration lies within the children |
| ConnectorActions.AddVariableDeclarationPlacement | modules/editor/web/js/ballerina/ast/connector-action.js:114-130 | a new variable declaration becomes the last declaration, no other kind changes, and the first one goes after the connector declarations |
| ConnectorActions.NoVariableDeclarations | modules/editor/web/js/ballerina/ast/connector-action.js:114-130 | with no variable declaration, the last-index search finds none |
| ConnectorActions.ArgumentSlot | modules/editor/web/js/ballerina/ast/connector-action.js:287-301 | the insertion index for an argument lies within the children |
| ConnectorActions.AddArgumentPlacement | modules/editor/web/js/ballerina/ast/connector-action.js:287-301 | a new argument becomes the last argument and no other kind of child changes |
| ConnectorActions.InsertAfterLast | modules/editor/web/js/ballerina/ast/connector-action.js:287-301 | inserting after the last child of a node's kind, when no child of that kind follows, appends the child to that kind and leaves the other kinds unchanged |
| ConnectorActions.RemoveArguments | modules/editor/web/js/ballerina/ast/connector-action.js:308-313 | after removal no argument with the identifier is left |
| ConnectorActions.RemoveArgumentsKeepsOthers | modules/editor/web/js/ballerina/ast/connector-action.js:308-313 | removing arguments keeps every child of any other kind |
| ConnectorActions.RemoveUndoesAdd | modules/editor/web/js/ballerina/ast/connector-action.js:287-313 | removing an argument that was just added by its new identifier restores the children |
| ConnectorActions.RemoveUndoesInsert | modules/editor/web/js/ballerina/ast/connector-action.js:287-313 | removing an inserted argument with a fresh identifier restores the children, wherever it was inserted |
| ConnectorActions.RemoveNoMatch | modules/editor/web/js/ballerina/ast/connector-action.js:308-313 | removing an identifier no argument has changes nothing |
| ConnectorActions.RemoveAppend | modules/editor/web/js/ballerina/ast/connector-action.js:308-313 | removal distributes over concatenation |
| ConnectorActions.ReturnTypeIndex | modules/editor/web/js/ballerina/ast/connector-action.js:248-260 | the return type model found is the first one, and none exactly when there is none |
| ConnectorActions.WithReturnTypeModel | modules/editor/web/js/ballerina/ast/connector-action.js:161-170 | adding a return type model when needed leaves one present without changing the return types |
| ConnectorActions.ReturnTypeIndexAt | modules/editor/web/js/ballerina/ast/connector-action.js:248-260 | the first return type model is the one found |
| ConnectorActions.AddReturnTypeRules | modules/editor/web/js/ballerina/ast/connector-action.js:161-215 | adding a return type fails exactly when it repeats an identifier or would mix named and unnamed return types, in that order, which can only happen when a return-type model already existed; otherwise the new one is the last return type and all-named-or-all-unnamed with distinct identifiers is kept |
| ConnectorActions.FindReturnType | modules/editor/web/js/ballerina/ast/connector-action.js:221-242 | the return type found is the first with the model id, and none exactly when none has it |
| ConnectorActions.RemoveReturnTypeRules | modules/editor/web/js/ballerina/ast/connector-action.js:221-242 | removing a return type fails exactly when no return type has the model id; otherwise that one is removed |
| ConnectorActions.RemoveReturnTypeUndoesAdd | modules/editor/web/js/ballerina/ast/connector-action.js:161-242 | removing a return type just added restores the return types |
| ConnectorActions.FindReturnTypeAt | modules/editor/web/js/ballerina/ast/connector-action.js:221-242 | the first return type with the model id is the one found |
| ConnectorActions.ArgumentTexts | modules/editor/web/js/ballerina/ast/connector-action.js:268-280 | each argument's text is its type followed by its identifier |
| ConnectorActions.JoinWithLength | modules/editor/web/js/ballerina/ast/connector-action.js:268-280 | the joined text is as long as the parts plus one separator between each pair |
| ConnectorActions.JoinWithSeparatorStep | modules/editor/web/js/ballerina/ast/connector-action.js:268-280 | the argument loop's text after each argument is the join of the arguments so far, with a trailing separator while more follow |
| ConnectorActions.JoinWithStep | modules/editor/web/js/ballerina/ast/connector-action.js:268-280 | joining one more part appends the separator (except before the first) and that part |
| ConnectorActions.SetActionNameAsWritten | modules/editor/web/js/ballerina/ast/connector-action.js:72-74 | as written, setting the action name leaves the action name and writes the connector name |
| ConnectorActions.SetActionNameAsWrittenLosesName | modules/editor/web/js/ballerina/ast/connector-action.js:72-74 | as written, the name set is not the name read back |
| ConnectorActions.SetActionNameRoundTrip | modules/editor/web/js/ballerina/ast/connector-action.js:40-42 | with the corrected setter, the name set is the name read back, and nothing else changes |
| ConnectorActions.SetAnnotations | modules/editor/web/js/ballerina/ast/connector-action.js:80-86 | annotations replace the current ones when given; nothing changes when they are absent |
| ConnectorActions.ConnectorAction.constructor | modules/editor/web/js/ballerina/ast/connector-action.js:25-31 | a new action is named 'newAction' unless a name is given, with the annotations and arguments given or none |
| ConnectorActions.ConnectorAction.SetActionName | modules/editor/web/js/ballerina/ast/connector-action.js:72-74 | as written: the name is stored as connector_name, and getActionName keeps returning the previous name |
| ConnectorActions.ConnectorAction.SetAnnotationsOf | modules/editor/web/js/ballerina/ast/connector-action.js:80-86 | the annotations are set as the annotations specification says |
| ConnectorActions.ConnectorAction.AddVariableDeclaration | modules/editor/web/js/ballerina/ast/connector-action.js:114-130 | the declaration is inserted at its slot and becomes the last variable declaration |
| ConnectorActions.ConnectorAction.RemoveVariableDeclaration | modules/editor/web/js/ballerina/ast/connector-action.js:107-109 | the declaration is removed and the other children keep their order |
| ConnectorActions.ConnectorAction.AddArgument | modules/editor/web/js/ballerina/ast/connector-action.js:287-301 | the new argument is inserted after the last argument and becomes the last one |
| ConnectorActions.ConnectorAction.RemoveArgument | modules/editor/web/js/ballerina/ast/connector-action.js:308-313 | every argument with the identifier is removed |
| ConnectorActions.ConnectorAction.AddReturnType | modules/editor/web/js/ballerina/ast/connector-action.js:161-215 | the children change as the return type specification says, or its error is reported and the children stay as they were |
| ConnectorActions.ConnectorAction.RemoveReturnType | modules/editor/web/js/ballerina/ast/connector-action.js:221-242 | the return type is removed as the specification says, or the error is reported and nothing changes |
| ConnectorActions.ConnectorAction.GetArgumentsAsString | modules/editor/web/js/ballerina/ast/connector-action.js:268-280 | the loop's text is the argument texts joined with ', ' |
| JmsUtil.IsNullOrEmptyAfterTrim | stdlib/jms/src/main/java/org/ballerinalang/net/jms/utils/JmsUtils.java:53-55 | true exactly for null or for text made only of characters up to the space |
| JmsUtil.BlankIgnoresPadding | stdlib/jms/src/main/java/org/ballerinalang/net/jms/utils/JmsUtils.java:53-55 | padding with blanks does not change the test, and text with a visible character is never blank |
| JmsUtil.GetDeliveryMode | stdlib/jms/src/main/java/org/ballerinalang/net/jms/utils/JmsUtils.java:130-137 | a null delivery mode fails; otherwise the mode is PERSISTENT (2) exactly for the persistent name and NON_PERSISTENT (1) for anything else |
| JmsUtil.CopyOf | stdlib/jms/src/main/java/org/ballerinalang/net/jms/utils/JmsUtils.java:81-83 | the copy has the requested length, the original's bytes first and zeros after |
| JmsUtil.GetBytesData | stdlib/jms/src/main/java/org/ballerinalang/net/jms/utils/JmsUtils.java:81-83 | the bytes have the array's size and are its leading bytes when it holds enough |
| JmsUtil.MessageTypeOf | stdlib/jms/src/main/java/org/ballerinalang/net/jms/utils/JmsUtils.java:102-119 | a message is classified as text, bytes, stream or map in that order of precedence, and generic exactly when it is none of them |
| JmsUtil.MessageTypeSound | stdlib/jms/src/main/java/org/ballerinalang/net/jms/utils/JmsUtils.java:102-119 | the message implements the type it is classified as, and only plain messages are generic |
| JmsUtil.CreateAndPopulateMessageObject | stdlib/jms/src/main/java/org/ballerinalang/net/jms/utils/JmsUtils.java:102-119 | the message object wraps the message and session and has the message's class |
| JmsUtil.PopulateAndGetDestinationObj | stdlib/jms/src/main/java/org/ballerinalang/net/jms/utils/JmsUtils.java:85-100 | a queue or topic gives a destination object with its name and type string that carries it; any other destination fails |
| JmsDestinations.CreateQueue | stdlib/jms/src/main/java/org/ballerinalang/net/jms/externimpl/destination/Init.java:66-71 | a queue is temporary exactly when no name is given, and named by the broker then |
| JmsDestinations.CreateTopic | stdlib/jms/src/main/java/org/ballerinalang/net/jms/externimpl/destination/Init.java:73-78 | a topic is temporary exactly when no name is given, and named by the broker then |
| JmsDestinations.CreateDestination | stdlib/jms/src/main/java/org/ballerinalang/net/jms/externimpl/destination/Init.java:49-58 | the queue type gives a queue, the topic type a topic, any other type the unsupported-type error; the destination is temporary exactly when unnamed |
| JmsDestinations.InitAsWritten | stdlib/jms/src/main/java/org/ballerinalang/net/jms/externimpl/destination/Init.java:49-78 | as written, init fails on an unsupported type or a JMS error and otherwise returns the object unchanged |
| JmsDestinations.InitIntended | stdlib/jms/src/main/java/org/ballerinalang/net/jms/externimpl/destination/Init.java:49-78 | corrected version of these lines (see ## Findings): fails exactly when the as-written init fails, with the same message, and otherwise attaches the created destination to the object |
| JmsDestinations.InitAsWrittenAttachesNothing | stdlib/jms/src/main/java/org/ballerinalang/net/jms/externimpl/destination/Init.java:52-55 | as written, a destination object without a JMS destination has none after a successful init |
| JmsDestinations.InitRoundTrip | stdlib/jms/src/main/java/org/ballerinalang/net/jms/externimpl/destination/Init.java:49-78 | with the corrected init, the attached destination populates back to the same name and type, and initialising that again asks for the same destination |
| JmsConsumers.ConsumerFor | stdlib/jms/src/main/java/org/ballerinalang/net/jms/externimpl/consumer/Init.java:53-74 | for a topic, blank durable id and shared name choose the plain, shared, durable or shared durable consumer; any other destination gets a plain consumer without noLocal; each call gets the configured arguments |
| JmsConsumers.SubscriptionNamesAreNotBlank | stdlib/jms/src/main/java/org/ballerinalang/net/jms/externimpl/consumer/Init.java:61-74 | shared and durable subscriptions are named only by names with a visible character, and a queue always gets a plain consumer |
| JmsConsumers.NoLocalOnlyForTopics | stdlib/jms/src/main/java/org/ballerinalang/net/jms/externimpl/consumer/Init.java:61-74 | noLocal reaches the session only for a topic consumer |
| JmsConsumers.Init | stdlib/jms/src/main/java/org/ballerinalang/net/jms/externimpl/consumer/Init.java:49-81 | the consumer init returns the chosen consumer, or the error value exactly when the session refuses |
| JmsConsumers.ConsumerOnUninitialisedTopic | stdlib/jms/src/main/java/org/ballerinalang/net/jms/externimpl/consumer/Init.java:53-74 | after the destination init as written, a topic consumer is a plain consumer with no destination whatever its durable and shared names |
| JmsConsumers.ConsumerOnInitialisedTopic | stdlib/jms/src/main/java/org/ballerinalang/net/jms/externimpl/consumer/Init.java:61-71 | after the corrected destination init, a durable id on a topic gives a durable consumer on that topic |
| JmsConnections.Get | stdlib/jms/src/main/java/org/ballerinalang/net/jms/externimpl/connection/Init.java:127-149 | a lookup gives the stored value of a present key, and null for a missing one |
| JmsConnections.PreProcess | stdlib/jms/src/main/java/org/ballerinalang/net/jms/externimpl/connection/Init.java:127-149 | parameters without an MB factory alias are untouched; the only error is the missing factory name, raised exactly when a provider URL is set and the factory name is blank |
| JmsConnections.PreProcessSetsMbFactory | stdlib/jms/src/main/java/org/ballerinalang/net/jms/externimpl/connection/Init.java:128-132 | with an MB alias, the initial context factory becomes the MB factory name |
| JmsConnections.PreProcessMovesProviderUrl | stdlib/jms/src/main/java/org/ballerinalang/net/jms/externimpl/connection/Init.java:134-139 | with a provider URL and a factory name, the URL moves to the prefixed factory-name key and the URL key is removed |
| JmsConnections.PreProcessNeedsFactoryName | stdlib/jms/src/main/java/org/ballerinalang/net/jms/externimpl/connection/Init.java:134-143 | with a provider URL and a blank factory name, preprocessing fails with the missing-name error |
| JmsConnections.PreProcessMovesConfigFile | stdlib/jms/src/main/java/org/ballerinalang/net/jms/externimpl/connection/Init.java:144-147 | without a provider URL, the config file path becomes the provider URL and its key is removed |
| JmsConnections.MbAliasIgnoresCase | stdlib/jms/src/main/java/org/ballerinalang/net/jms/externimpl/connection/Init.java:128-131 | the MB aliases are recognised in upper case too |
| JmsConnections.MovedValueArrives | stdlib/jms/src/main/java/org/ballerinalang/net/jms/externimpl/connection/Init.java:151-163 | after mapping, a mapped key's value is under its target key and every unmapped key is kept |
| JmsConnections.NoMappedKeyLeft | stdlib/jms/src/main/java/org/ballerinalang/net/jms/externimpl/connection/Init.java:151-163 | when no target is itself mapped, no mapped key is left after mapping |
| JmsConnections.Credentials | stdlib/jms/src/main/java/org/ballerinalang/net/jms/externimpl/connection/Init.java:107-119 | credentials are used exactly when both are given and the username has a visible character |
| JmsConnections.ConfigParams.constructor | stdlib/jms/src/main/java/org/ballerinalang/net/jms/externimpl/connection/Init.java:79-88 | the parameters start with the factory, URL and connection factory name under their keys |
| JmsConnections.ConfigParams.PreProcessIfWso2MB | stdlib/jms/src/main/java/org/ballerinalang/net/jms/externimpl/connection/Init.java:127-149 | the parameters and the error after the method are those of the preprocessing specification |
| JmsConnections.ConfigParams.UpdateMappedParameters | stdlib/jms/src/main/java/org/ballerinalang/net/jms/externimpl/connection/Init.java:151-163 | after the loop, every mapped key's value has moved to its target and the other keys are unchanged |
| ModuleDescriptors.CompilationId | compiler/ballerina-lang/src/main/java/io/ballerina/projects/ModuleDescriptor.java:36-61 | the compilation id is the default one exactly for the '.' package of the anonymous organisation; otherwise it holds the organisation, the module name and the version |
| ModuleDescriptors.FromParts | compiler/ballerina-lang/src/main/java/io/ballerina/projects/ModuleDescriptor.java:63-68 | a descriptor from parts keeps the module name, has no package descriptor, and has the compilation id of its parts |
| ModuleDescriptors.From | compiler/ballerina-lang/src/main/java/io/ballerina/projects/ModuleDescriptor.java:70-72 | a descriptor from a package descriptor keeps both and has the compilation id of the package's parts |
| ModuleDescriptors.SameIdEitherWay | compiler/ballerina-lang/src/main/java/io/ballerina/projects/ModuleDescriptor.java:36-61 | both constructors give the same compilation id for the same parts |
| ModuleDescriptors.PackageName | compiler/ballerina-lang/src/main/java/io/ballerina/projects/ModuleDescriptor.java:74-76 | the package name comes from the package descriptor and fails with a null pointer when there is none |
| ModuleDescriptors.Org | compiler/ballerina-lang/src/main/java/io/ballerina/projects/ModuleDescriptor.java:78-80 | the organisation comes from the package descriptor and fails with a null pointer when there is none |
| ModuleDescriptors.Version | compiler/ballerina-lang/src/main/java/io/ballerina/projects/ModuleDescriptor.java:82-84 | the version comes from the package descriptor and fails with a null pointer when there is none |
| ModuleDescriptors.FromRoundTrip | compiler/ballerina-lang/src/main/java/io/ballerina/projects/ModuleDescriptor.java:68-88 | a descriptor from a package descriptor gives back its module name, package name, organisation and version |
| ModuleDescriptors.Equals | compiler/ballerina-lang/src/main/java/io/ballerina/projects/ModuleDescriptor.java:94-107 | equal exactly when the other is not null and has the same module name and package descriptor |
| ModuleDescriptors.EqualsIsEquivalence | compiler/ballerina-lang/src/main/java/io/ballerina/projects/ModuleDescriptor.java:94-107 | equals is reflexive, symmetric and transitive, and never equal to null |
| ModuleDescriptors.PartsDescriptorsEqualByName | compiler/ballerina-lang/src/main/java/io/ballerina/projects/ModuleDescriptor.java:63-107 | two descriptors from parts with the same module name are equal though their compilation ids differ |
| ModuleDescriptors.HashCode | compiler/ballerina-lang/src/main/java/io/ballerina/projects/ModuleDescriptor.java:109-112 | the hash code is a 32-bit value |
| ModuleDescriptors.EqualsConsistentWithHashCode | compiler/ballerina-lang/src/main/java/io/ballerina/projects/ModuleDescriptor.java:94-112 | equal descriptors have equal hash codes |
| VariableSymbols.FlagOnAfterSet | compiler/ballerina-lang/src/main/java/io/ballerina/compiler/api/impl/symbols/BallerinaVariableSymbol.java:80-83 | a flag is on after its bits are set, and a non-zero flag is off after they are cleared |
| VariableSymbols.BallerinaVariableSymbol.constructor | compiler/ballerina-lang/src/main/java/io/ballerina/compiler/api/impl/symbols/BallerinaVariableSymbol.java:46-58 | the symbol keeps its parts and is deprecated exactly when the deprecated flag is on |
| VariableSymbols.VariableSymbolBuilder.constructor | compiler/ballerina-lang/src/main/java/io/ballerina/compiler/api/impl/symbols/BallerinaVariableSymbol.java:95-101 | a new builder is of kind VARIABLE with fresh, empty qualifier and annotation lists and no type descriptor |
| VariableSymbols.VariableSymbolBuilder.WithTypeDescriptor | compiler/ballerina-lang/src/main/java/io/ballerina/compiler/api/impl/symbols/BallerinaVariableSymbol.java:109-112 | the type descriptor is replaced and the builder returned |
| VariableSymbols.VariableSymbolBuilder.WithQualifier | compiler/ballerina-lang/src/main/java/io/ballerina/compiler/api/impl/symbols/BallerinaVariableSymbol.java:114-117 | the qualifier is appended, the annotations are unchanged and the builder returned |
| VariableSymbols.VariableSymbolBuilder.WithAnnotation | compiler/ballerina-lang/src/main/java/io/ballerina/compiler/api/impl/symbols/BallerinaVariableSymbol.java:119-122 | the annotation is appended, the qualifiers are unchanged and the builder returned |
| VariableSymbols.VariableSymbolBuilder.BuildAsWritten | compiler/ballerina-lang/src/main/java/io/ballerina/compiler/api/impl/symbols/BallerinaVariableSymbol.java:103-107 | as written, the symbol wraps the builder's own lists |
| VariableSymbols.VariableSymbolBuilder.BuildIntended | compiler/ballerina-lang/src/main/java/io/ballerina/compiler/api/impl/symbols/BallerinaVariableSymbol.java:103-107 | corrected version of these lines (see ## Findings): the symbol gets fresh lists with the builder's qualifiers and annotations, its type descriptor and kind, and is deprecated exactly when the flag is on |
| VariableSymbols.BuildVariable | compiler/ballerina-lang/src/main/java/io/ballerina/compiler/api/impl/symbols/BallerinaVariableSymbol.java:66-122 | a symbol built through a chain of calls and the build as written has, at build time, the qualifiers and annotations in call order, the last type descriptor given, and kind VARIABLE |
| VariableSymbols.QualifierAddedAfterBuildAsWritten | compiler/ballerina-lang/src/main/java/io/ballerina/compiler/api/impl/symbols/BallerinaVariableSymbol.java:103-117 | as written, a qualifier added after build shows up in the symbol already built |
| VariableSymbols.QualifierAddedAfterBuild | compiler/ballerina-lang/src/main/java/io/ballerina/compiler/api/impl/symbols/BallerinaVariableSymbol.java:103-117 | with the copying build, a symbol keeps the qualifiers it was built with |

## Left out

- Network I/O, Netty channels, futures and callbacks are not modelled as such. A handshake's outcome, a future's result and a callback's completion are inputs, and what the code does with them is an effect in a trace.
- Concurrency between callbacks on different channels is left out. Each listener method runs atomically.
- WebSocketUtil.handleHandshake: the channel ids of new connections are chosen by the caller. The Ballerina objects created for a connection are not modelled; only its service and id are kept.
- WebSocketUtil.closeDuringUnexpectedCondition and the error-frame paths only appear as trace effects. Their Netty calls are not modelled.
- WebSocketServices.FindFullWebSocketUpgradePath: HttpUtil.sanitizeBasePath is a parameter, because that helper is not part of this model.
- WebSocketServices.NewWebSocketService: the BLangConstants package prefix for the listener endpoint's name is a parameter. The service's own annotation reading is reduced to the config record.
- WebSocketUtil.SetSslConfig and WebSocketUtil.PopulateSslConfiguration: the names of the TLS parameters are inputs (`ParamNames`), because their values are WebSocketConstants entries outside this model. The endpoint init passes its literal names.
- WebSocketUtil.getServerName and InitEndpoint.getServerName are modelled inside the expected listener configuration. The `ballerina.version` system property and the `b7a.http.host` configuration entry are an environment parameter.
- CliOptions.GetBValue: float and decimal arguments are kept as text, because Java's floating-point and BigDecimal parsing is not modelled. So their "invalid argument '<arg>', expected float value" and "… expected decimal value" errors are not modelled either: `--f=abc` on a float or decimal field succeeds in the model, where Java fails.
- CliOptions.ParseRecordErrors and CliOptions.CliOption.ValidateRecord: validateRecord walks only the keys already in the record, so a field of the record type that is absent from the initial record and never given is not reported. The model keeps that behaviour, and its promise covers only the record's keys.
- CliOptions.GetBValue: the boolean conversion is never reached for boolean fields, so it is not modelled.
- CliOptions.GetIntegerValue: digits are the ASCII ones. Java's Unicode digits and Unicode upper-casing of the hex prefix are not modelled.
- CliOptions.IsOption: CliUtil.isOption is taken to be the `--` prefix test, and RuntimeUtils.isByteLiteral the range 0..255. Those helpers are not part of this model.
- CliOptions.TypeText: union type names in error messages are approximated by joining member names with `|`.
- ConnectorActions: ASTNode.addChild and removeChild are taken to be insertion and removal in the children sequence. Ids come from the caller.
- ConnectorActions: getReturnTypesAsString is left out. Argument.getArgumentAsString is not part of this model, and the argument text is modelled only for getArgumentsAsString.
- ConnectorActions: canBeParentOf is the predicate CanBeParentOf. The AST framework that consults it is not part of this model.
- JmsConnections: the JmsConstants key names and MAPPING_PARAMETERS are parameters, because JmsConstants is not part of this model.
- JmsConnections: the JNDI InitialContext, the Properties assembly (connection/Init.java:93-106, 120-124), connection start, the random client id and System.setProperty are left out.
- JmsConnections: the listener-side Init.init, with its thread, listener and start, is left out.
- JmsConnections.IsMbAlias: `equalsIgnoreCase` is modelled by ASCII case folding only. Java also matches characters whose Unicode upper or lower cases agree, such as U+0131 or U+212A (the Kelvin sign) with 'i' or 'k', so an initial context factory spelled with such a character is an MB alias to Java but not to the model.
- JmsConnections.ConfigParams.UpdateMappedParameters: HashMap iteration order is unspecified, so the loop picks keys nondeterministically. When two keys map to the same target, which value wins is not fixed.
- JmsConsumers.Init, JmsDestinations.InitAsWritten and JmsDestinations.InitIntended: the JMS session is outside the model. Its refusal is a `jmsFails` flag, and the broker's name for a temporary destination is a parameter.
- JmsUtil: the destination type strings and the PERSISTENT name are parameters (JmsConstants values). javax.jms.DeliveryMode's NON_PERSISTENT = 1 and PERSISTENT = 2 are fixed.
- ModuleDescriptors.HashCode: the hash codes of ModuleName and PackageDescriptor are parameters. Their equality is taken to be structural.
- ModuleDescriptors.Name has no contract of its own; it is used by ModuleDescriptors.FromRoundTrip.
- VariableSymbols: Flags.DEPRECATED is a parameter. The internals of qualifiers, annotations and type symbols are not modelled.

## Findings

| source | as written | input that shows it | evidently intended | confidence | as-written member | corrected member |
|---|---|---|---|---|---|---|
| modules/editor/web/js/ballerina/ast/connector-action.js:72-74 | setActionName stores the name under `connector_name`, while getActionName reads `action_name` | a new action, then setActionName("getUser"): getActionName still returns "newAction" | setActionName sets `action_name` | not executed | ConnectorActions.SetActionNameAsWrittenLosesName | ConnectorActions.SetActionNameRoundTrip |
| compiler/ballerina-lang/src/main/java/io/ballerina/compiler/api/impl/symbols/BallerinaVariableSymbol.java:103-107 | build wraps the builder's own lists in unmodifiable views, so later withQualifier calls change an already-built symbol | withQualifier(a), build(), withQualifier(b): the symbol's qualifiers go from [a] to [a, b] | the symbol keeps the qualifiers given before build | not executed | VariableSymbols.QualifierAddedAfterBuildAsWritten | VariableSymbols.QualifierAddedAfterBuild |
| stdlib/jms/src/main/java/org/ballerinalang/net/jms/externimpl/destination/Init.java:52-55 | init passes the destination to createQueue/createTopic, which wrap it in a new object that is discarded; the object init was called on never gets the JMS destination | a topic destination object named "t", initialised, then used for a consumer with a durable id: the consumer reads no destination and asks for a plain consumer on null | the created destination is attached to the object init was called on | not executed; the Ballerina-side destination object is not part of this model | JmsConsumers.ConsumerOnUninitialisedTopic | JmsConsumers.ConsumerOnInitialisedTopic |
