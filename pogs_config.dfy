/** The configuration model of the tunnel agent (package pogs): the client configuration
    pushed by the control plane, its four fallible sub-configurations, the closed set of
    origin variants, configuration versions and the failure reasons reported per
    sub-configuration. */
module Pogs {
  import opened Wrappers
  import opened Types

  /** Errors, kept structured: the text Go would format is in the comment of each variant. */
  datatype Error =
    | Errorf(message: string)                         // fmt.Errorf / errors.New with a fixed text
    | UnknownWhich(context: string, which: nat)       // fmt.Errorf("<context>: %v", which)
    | WireError(field: string)                        // the error a capnp accessor returns for a field
    | Wrap(context: string, cause: Error)             // errors.Wrap(cause, context)
    | WrapAt(context: string, index: nat, cause: Error) // errors.Wrapf(cause, "<context> %d", index)

  // ---------------------------------------------------------------------------------------
  // Versions

  /** A monotonic configuration revision (Go: `type Version uint64`). */
  type Version = uint64

  function InitVersion(): (v: Version)
    ensures forall w: Version :: IsNewerOrEqual(w, v)
  {
    0
  }

  /** Whether v is at least as recent as comparedVersion: every version is newer-or-equal to
      itself and to version 0, and the answer is no only against a strictly later version. */
  function IsNewerOrEqual(v: Version, comparedVersion: Version): (newer: bool)
    ensures v == comparedVersion ==> newer
    ensures comparedVersion == 0 ==> newer
    ensures !newer ==> v < comparedVersion
  {
    v >= comparedVersion
  }

  /** Newer-or-equal is a total preorder on versions that is also antisymmetric. */
  lemma IsNewerOrEqualIsTotalOrder(u: Version, v: Version, w: Version)
    ensures IsNewerOrEqual(v, v)
    ensures IsNewerOrEqual(u, v) && IsNewerOrEqual(v, w) ==> IsNewerOrEqual(u, w)
    ensures IsNewerOrEqual(u, v) || IsNewerOrEqual(v, u)
    ensures IsNewerOrEqual(u, v) && IsNewerOrEqual(v, u) ==> u == v
  {
  }

  // ---------------------------------------------------------------------------------------
  // Sub-configurations

  datatype SupervisorConfig = SupervisorConfig(
    autoUpdateFrequency: Duration,
    metricsUpdateFrequency: Duration,
    gracePeriod: Duration)

  datatype EdgeConnectionConfig = EdgeConnectionConfig(
    numHAConnections: uint8,
    heartbeatInterval: Duration,
    timeout: Duration,
    maxFailedHeartbeats: uint64,
    userCredentialPath: string)

  datatype DoHProxyConfig = DoHProxyConfig(
    listenHost: string,
    listenPort: uint16,
    upstreams: seq<string>)

  datatype HTTPOriginConfig = HTTPOriginConfig(
    urlString: string,
    tcpKeepAlive: Duration,
    dialDualStack: bool,
    tlsHandshakeTimeout: Duration,
    tlsVerify: bool,
    originCAPool: string,
    originServerName: string,
    maxIdleConnections: uint64,
    idleConnectionTimeout: Duration,
    proxyConnectionTimeout: Duration,
    expectContinueTimeout: Duration,
    chunkedEncoding: bool)

  datatype WebSocketOriginConfig = WebSocketOriginConfig(
    urlString: string,
    tlsVerify: bool,
    originCAPool: string,
    originServerName: string)

  /** The sealed sum type OriginConfig: exactly the three registered variants. */
  datatype OriginConfig =
    | HTTPOrigin(http: HTTPOriginConfig)
    | WebSocketOrigin(websocket: WebSocketOriginConfig)
    | HelloWorldOrigin

  /** Wraps one OriginConfig interface value, which Go allows to be nil (None). */
  datatype OriginConfigJSONHandler = OriginConfigJSONHandler(originConfig: Option<OriginConfig>)

  /** `OriginConfigJSONHandler` is a Go pointer: None stands for a nil handler. */
  datatype ReverseProxyConfig = ReverseProxyConfig(
    tunnelHostname: string,
    originConfigJSONHandler: Option<OriginConfigJSONHandler>,
    retries: uint64,
    connectionTimeout: Duration,
    compressionQuality: uint64)

  datatype ClientConfig = ClientConfig(
    version: Version,
    supervisorConfig: SupervisorConfig,
    edgeConnectionConfig: EdgeConnectionConfig,
    dohProxyConfigs: seq<DoHProxyConfig>,
    reverseProxyConfigs: seq<ReverseProxyConfig>)

  /** The FallibleConfig interface: the four sub-configurations a failure can be reported for. */
  datatype FallibleConfig =
    | Supervisor(supervisor: SupervisorConfig)
    | EdgeConnection(edgeConnection: EdgeConnectionConfig)
    | DoH(doh: DoHProxyConfig)
    | ReverseProxy(reverseProxy: ReverseProxyConfig)

  /** `Config` is a Go interface value: None stands for nil. */
  datatype FailedConfig = FailedConfig(config: Option<FallibleConfig>, reason: string)

  datatype UseConfigurationResult = UseConfigurationResult(success: bool, failedConfigs: seq<FailedConfig>)

  // ---------------------------------------------------------------------------------------
  // FallibleConfig methods

  /** The Go type name of each sub-configuration kind. */
  function KindName(c: FallibleConfig): string {
    match c
    case Supervisor(_) => "SupervisorConfig"
    case EdgeConnection(_) => "EdgeConnectionConfig"
    case DoH(_) => "DoHProxyConfig"
    case ReverseProxy(_) => "ReverseProxyConfig"
  }

  /** The reason text of a sub-configuration that could not be applied; `err` is the
      underlying error's message. */
  function FailReason(c: FallibleConfig, err: string): (reason: string)
    ensures |reason| > |err| && reason[|reason| - |err|..] == err
    ensures |reason| >= |"Cannot apply "| && reason[..|"Cannot apply "|] == "Cannot apply "
  {
    "Cannot apply " + KindName(c) + ", err: " + err
  }

  /** A reason is "Cannot apply ", then the kind's name, then ", err: ", then the error text. */
  lemma FailReasonForm(c: FallibleConfig, err: string)
    ensures var r := FailReason(c, err);
            && |r| == |"Cannot apply "| + |KindName(c)| + |", err: "| + |err|
            && r[..|"Cannot apply "|] == "Cannot apply "
            && r[|"Cannot apply "|..|"Cannot apply "| + |KindName(c)|] == KindName(c)
            && r[|"Cannot apply "| + |KindName(c)|..|r| - |err|] == ", err: "
            && r[|r| - |err|..] == err
  {
  }

  /** A reason determines the kind of sub-configuration and the underlying error. */
  lemma FailReasonDeterminesKindAndError(a: FallibleConfig, b: FallibleConfig, e1: string, e2: string)
    requires FailReason(a, e1) == FailReason(b, e2)
    ensures KindName(a) == KindName(b)
    ensures e1 == e2
  {
    var r := FailReason(a, e1);
    var prefix := "Cannot apply ";
    assert r == prefix + KindName(a) + ", err: " + e1;
    assert r == prefix + KindName(b) + ", err: " + e2;
    assert r[|prefix|] == KindName(a)[0];
    assert r[|prefix|] == KindName(b)[0];
    var head := prefix + KindName(a) + ", err: ";
    assert r == head + e1;
    assert r == head + e2;
    assert e1 == r[|head|..];
  }

  /** The JSON type key of a sub-configuration: a snake_case name ending in "_config". */
  function JsonType(c: FallibleConfig): (key: string)
    ensures |key| > |"_config"| && key[|key| - |"_config"|..] == "_config"
  {
    match c
    case Supervisor(_) => "supervisor_config"
    case EdgeConnection(_) => "edge_connection_config"
    case DoH(_) => "doh_proxy_config"
    case ReverseProxy(_) => "reverse_proxy_config"
  }

  /** Distinct kinds have distinct JSON type keys. */
  lemma JsonTypeDeterminesKind(a: FallibleConfig, b: FallibleConfig)
    ensures JsonType(a) == JsonType(b) <==> KindName(a) == KindName(b)
  {
  }

  // ---------------------------------------------------------------------------------------
  // Origin types

  /** originType constants (Go iota). */
  const HttpType: int := 0
  const WsType: int := 1
  const HelloWorldType: int := 2

  function OriginTypeString(ot: int): (name: string)
    ensures name == "unknown" <==> ot !in {HttpType, WsType, HelloWorldType}
  {
    if ot == HttpType then "Http"
    else if ot == WsType then "WebSocket"
    else if ot == HelloWorldType then "HelloWorld"
    else "unknown"
  }

  /** The three registered origin types have pairwise distinct names, none of them "unknown";
      every other value is "unknown". */
  lemma OriginTypeStringCases(a: int, b: int)
    ensures OriginTypeString(a) == "unknown" <==> a !in {HttpType, WsType, HelloWorldType}
    ensures a in {HttpType, WsType, HelloWorldType} && OriginTypeString(a) == OriginTypeString(b) ==> a == b
  {
  }

  function OriginTypeOf(o: OriginConfig): int {
    match o
    case HTTPOrigin(_) => HttpType
    case WebSocketOrigin(_) => WsType
    case HelloWorldOrigin => HelloWorldType
  }

  /** jsonType of an origin config: the name of its originType. */
  function OriginJsonType(o: OriginConfig): (name: string)
    ensures name in {"Http", "WebSocket", "HelloWorld"}
  {
    OriginTypeString(OriginTypeOf(o))
  }

  /** The jsonType of an origin config is never "unknown" and determines its variant. */
  lemma OriginJsonTypeDeterminesVariant(o: OriginConfig, p: OriginConfig)
    ensures OriginJsonType(o) != "unknown"
    ensures OriginJsonType(o) == OriginJsonType(p) <==> OriginTypeOf(o) == OriginTypeOf(p)
  {
  }

  // ---------------------------------------------------------------------------------------
  // Construction

  function NewReverseProxyConfig(
    tunnelHostname: string,
    originConfig: Option<OriginConfig>,
    retries: uint64,
    connectionTimeout: Duration,
    compressionQuality: uint64
  ): (r: Result<ReverseProxyConfig, Error>)
    ensures r.Failure? <==> originConfig.None?
    ensures r.Failure? ==> r.error == Errorf("NewReverseProxyConfig: originConfigUnmarshaler was null")
    ensures r.Success? ==>
      && r.value.tunnelHostname == tunnelHostname
      && r.value.originConfigJSONHandler == Some(OriginConfigJSONHandler(originConfig))
      && r.value.retries == retries
      && r.value.connectionTimeout == connectionTimeout
      && r.value.compressionQuality == compressionQuality
  {
    if originConfig.None? then
      Failure(Errorf("NewReverseProxyConfig: originConfigUnmarshaler was null"))
    else
      Success(ReverseProxyConfig(
        tunnelHostname,
        Some(OriginConfigJSONHandler(originConfig)),
        retries,
        connectionTimeout,
        compressionQuality))
  }
}
