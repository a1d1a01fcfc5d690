/** The Cap'n Proto wire structs of the tunnel RPC schema, as the generated `tunnelrpc`
    accessors present them. Field order follows the schema; a union is a datatype whose
    constructor is its discriminant (`Which()`), with one constructor per arm and one for
    a discriminant this schema version does not know. */
module TunnelRpc {
  import opened Types

  /** A pointer field as its accessor reads it: the value, or the error the accessor
      returns for a pointer it cannot follow (a null pointer reads as the zero value). */
  datatype Field<+T> = Present(value: T) | Corrupt

  datatype SupervisorConfig = SupervisorConfig(
    autoUpdateFrequency: int64,
    metricsUpdateFrequency: int64,
    gracePeriod: int64)

  datatype EdgeConnectionConfig = EdgeConnectionConfig(
    numHAConnections: uint8,
    heartbeatInterval: int64,
    timeout: int64,
    maxFailedHeartbeats: uint64,
    userCredentialPath: string)

  datatype DoHProxyConfig = DoHProxyConfig(
    listenHost: string,
    listenPort: uint16,
    upstreams: seq<string>)

  datatype HTTPOriginConfig = HTTPOriginConfig(
    urlString: string,
    tcpKeepAlive: int64,
    dialDualStack: bool,
    tlsHandshakeTimeout: int64,
    tlsVerify: bool,
    originCAPool: string,
    originServerName: string,
    maxIdleConnections: uint64,
    idleConnectionTimeout: int64,
    proxyConnectionTimeout: int64,
    expectContinueTimeout: int64,
    chunkedEncoding: bool)

  datatype WebSocketOriginConfig = WebSocketOriginConfig(
    urlString: string,
    tlsVerify: bool,
    originCAPool: string,
    originServerName: string)

  datatype HelloWorldOriginConfig = HelloWorldOriginConfig

  /** A discriminant of `ReverseProxyConfig.origin` outside the three known arms. */
  type UnknownOriginWhich = w: int | 3 <= w < 0x1_0000 witness 3

  /** The union `ReverseProxyConfig.origin { http, websocket, helloWorld }`. */
  datatype ReverseProxyConfigOrigin =
    | Http(http: Field<HTTPOriginConfig>)
    | Websocket(websocket: Field<WebSocketOriginConfig>)
    | HelloWorld(helloWorld: Field<HelloWorldOriginConfig>)
    | UnknownOrigin(which: UnknownOriginWhich)
  {
    function Which(): uint16 {
      match this
      case Http(_) => 0
      case Websocket(_) => 1
      case HelloWorld(_) => 2
      case UnknownOrigin(w) => w
    }
  }

  datatype ReverseProxyConfig = ReverseProxyConfig(
    tunnelHostname: Field<string>,
    origin: ReverseProxyConfigOrigin,
    retries: uint64,
    connectionTimeout: int64,
    compressionQuality: uint64)

  datatype ClientConfig = ClientConfig(
    version: uint64,
    supervisorConfig: Field<SupervisorConfig>,
    edgeConnectionConfig: Field<EdgeConnectionConfig>,
    dohProxyConfigs: Field<seq<Field<DoHProxyConfig>>>,
    reverseProxyConfigs: Field<seq<ReverseProxyConfig>>)

  /** A discriminant of `FailedConfig.config` outside the four known arms. */
  type UnknownConfigWhich = w: int | 4 <= w < 0x1_0000 witness 4

  /** The union `FailedConfig.config { supervisor, edgeConnection, doh, reverseProxy }`. */
  datatype FailedConfigConfig =
    | Supervisor(supervisor: Field<SupervisorConfig>)
    | EdgeConnection(edgeConnection: Field<EdgeConnectionConfig>)
    | Doh(doh: Field<DoHProxyConfig>)
    | ReverseProxy(reverseProxy: Field<ReverseProxyConfig>)
    | UnknownConfig(which: UnknownConfigWhich)
  {
    function Which(): uint16 {
      match this
      case Supervisor(_) => 0
      case EdgeConnection(_) => 1
      case Doh(_) => 2
      case ReverseProxy(_) => 3
      case UnknownConfig(w) => w
    }
  }

  datatype FailedConfig = FailedConfig(config: FailedConfigConfig, reason: Field<string>)

  datatype UseConfigurationResult = UseConfigurationResult(
    success: bool,
    failedConfigs: Field<seq<FailedConfig>>)

  // Zero values: what a freshly allocated struct reads as before any setter runs. A null
  // struct pointer reads as the zero struct, a null text as "", a null list as [], and a
  // union's discriminant is 0, its first arm.

  function ZeroHTTPOriginConfig(): HTTPOriginConfig {
    HTTPOriginConfig("", 0, false, 0, false, "", "", 0, 0, 0, 0, false)
  }

  function ZeroReverseProxyConfig(): ReverseProxyConfig {
    ReverseProxyConfig(Present(""), Http(Present(ZeroHTTPOriginConfig())), 0, 0, 0)
  }

  function ZeroDoHProxyConfig(): DoHProxyConfig {
    DoHProxyConfig("", 0, [])
  }

  function ZeroClientConfig(): ClientConfig {
    ClientConfig(
      0,
      Present(SupervisorConfig(0, 0, 0)),
      Present(EdgeConnectionConfig(0, 0, 0, 0, "")),
      Present([]),
      Present([]))
  }

  function ZeroFailedConfig(): FailedConfig {
    FailedConfig(Supervisor(Present(SupervisorConfig(0, 0, 0))), Present(""))
  }

  function ZeroUseConfigurationResult(): UseConfigurationResult {
    UseConfigurationResult(false, Present([]))
  }
}
