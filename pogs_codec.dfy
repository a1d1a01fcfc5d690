/** The wire codec of the client configuration (tunnelrpc/pogs/config.go): field-by-field
    copies for the leaf structs, the origin union, the two lists, and the whole ClientConfig.
    The leaf structs are copied by pure functions. Each Marshal* that fills a capnp struct
    through setters is a method that takes a builder object and is proved against an Encode*
    specification function; each Unmarshal* that loops is a method proved against a Decode*
    specification function. */
module PogsCodec {
  import opened Wrappers
  import opened Types
  import opened Lists
  import opened Pogs
  import Wire = TunnelRpc

  // ---------------------------------------------------------------------------------------
  // Leaf structs: pogs.Insert / pogs.Extract as explicit field copies

  /** Inserts every field of the model into the wire struct unchanged. */
  function MarshalSupervisorConfig(p: SupervisorConfig): (s: Wire.SupervisorConfig)
    ensures s.autoUpdateFrequency == p.autoUpdateFrequency
    ensures s.metricsUpdateFrequency == p.metricsUpdateFrequency
    ensures s.gracePeriod == p.gracePeriod
  {
    Wire.SupervisorConfig(p.autoUpdateFrequency, p.metricsUpdateFrequency, p.gracePeriod)
  }

  function UnmarshalSupervisorConfig(s: Wire.SupervisorConfig): (p: SupervisorConfig)
    ensures MarshalSupervisorConfig(p) == s
  {
    SupervisorConfig(s.autoUpdateFrequency, s.metricsUpdateFrequency, s.gracePeriod)
  }

  /** Inserts every field of the model into the wire struct unchanged. */
  function MarshalEdgeConnectionConfig(p: EdgeConnectionConfig): (s: Wire.EdgeConnectionConfig)
    ensures s.numHAConnections == p.numHAConnections
    ensures s.heartbeatInterval == p.heartbeatInterval && s.timeout == p.timeout
    ensures s.maxFailedHeartbeats == p.maxFailedHeartbeats
    ensures s.userCredentialPath == p.userCredentialPath
  {
    Wire.EdgeConnectionConfig(
      p.numHAConnections, p.heartbeatInterval, p.timeout, p.maxFailedHeartbeats, p.userCredentialPath)
  }

  function UnmarshalEdgeConnectionConfig(s: Wire.EdgeConnectionConfig): (p: EdgeConnectionConfig)
    ensures MarshalEdgeConnectionConfig(p) == s
  {
    EdgeConnectionConfig(
      s.numHAConnections, s.heartbeatInterval, s.timeout, s.maxFailedHeartbeats, s.userCredentialPath)
  }

  /** Inserts every field of the model into the wire struct unchanged, upstreams in order. */
  function MarshalDoHProxyConfig(p: DoHProxyConfig): (s: Wire.DoHProxyConfig)
    ensures s.listenHost == p.listenHost && s.listenPort == p.listenPort
    ensures s.upstreams == p.upstreams
  {
    Wire.DoHProxyConfig(p.listenHost, p.listenPort, p.upstreams)
  }

  /** A list element whose struct cannot be extracted is an error. */
  function UnmarshalDoHProxyConfig(s: Wire.Field<Wire.DoHProxyConfig>): (r: Result<DoHProxyConfig, Error>)
    ensures r.Success? <==> s.Present?
    ensures r.Success? ==> MarshalDoHProxyConfig(r.value) == s.value
  {
    match s
    case Corrupt => Failure(WireError("DoHProxyConfig"))
    case Present(w) => Success(DoHProxyConfig(w.listenHost, w.listenPort, w.upstreams))
  }

  /** Inserts every field of the model into the wire struct unchanged. */
  function MarshalHTTPOriginConfig(p: HTTPOriginConfig): (s: Wire.HTTPOriginConfig)
    ensures s.urlString == p.urlString && s.originCAPool == p.originCAPool && s.originServerName == p.originServerName
    ensures s.tcpKeepAlive == p.tcpKeepAlive && s.tlsHandshakeTimeout == p.tlsHandshakeTimeout
    ensures s.idleConnectionTimeout == p.idleConnectionTimeout
    ensures s.proxyConnectionTimeout == p.proxyConnectionTimeout
    ensures s.expectContinueTimeout == p.expectContinueTimeout
    ensures s.dialDualStack == p.dialDualStack && s.tlsVerify == p.tlsVerify && s.chunkedEncoding == p.chunkedEncoding
    ensures s.maxIdleConnections == p.maxIdleConnections
  {
    Wire.HTTPOriginConfig(
      p.urlString, p.tcpKeepAlive, p.dialDualStack, p.tlsHandshakeTimeout, p.tlsVerify,
      p.originCAPool, p.originServerName, p.maxIdleConnections, p.idleConnectionTimeout,
      p.proxyConnectionTimeout, p.expectContinueTimeout, p.chunkedEncoding)
  }

  function UnmarshalHTTPOriginConfig(s: Wire.HTTPOriginConfig): (p: HTTPOriginConfig)
    ensures MarshalHTTPOriginConfig(p) == s
  {
    HTTPOriginConfig(
      s.urlString, s.tcpKeepAlive, s.dialDualStack, s.tlsHandshakeTimeout, s.tlsVerify,
      s.originCAPool, s.originServerName, s.maxIdleConnections, s.idleConnectionTimeout,
      s.proxyConnectionTimeout, s.expectContinueTimeout, s.chunkedEncoding)
  }

  /** Inserts every field of the model into the wire struct unchanged. */
  function MarshalWebSocketOriginConfig(p: WebSocketOriginConfig): (s: Wire.WebSocketOriginConfig)
    ensures s.urlString == p.urlString && s.tlsVerify == p.tlsVerify
    ensures s.originCAPool == p.originCAPool && s.originServerName == p.originServerName
  {
    Wire.WebSocketOriginConfig(p.urlString, p.tlsVerify, p.originCAPool, p.originServerName)
  }

  function UnmarshalWebSocketOriginConfig(s: Wire.WebSocketOriginConfig): (p: WebSocketOriginConfig)
    ensures MarshalWebSocketOriginConfig(p) == s
  {
    WebSocketOriginConfig(s.urlString, s.tlsVerify, s.originCAPool, s.originServerName)
  }

  /** Extracting what was inserted gives back the model, for each of the five leaf structs;
      with the Unmarshal* contracts the two directions make each pair mutually inverse. */
  lemma LeafConfigsRoundTrip(
    sc: SupervisorConfig, ec: EdgeConnectionConfig, dc: DoHProxyConfig,
    hc: HTTPOriginConfig, wc: WebSocketOriginConfig)
    ensures UnmarshalSupervisorConfig(MarshalSupervisorConfig(sc)) == sc
    ensures UnmarshalEdgeConnectionConfig(MarshalEdgeConnectionConfig(ec)) == ec
    ensures UnmarshalDoHProxyConfig(Wire.Present(MarshalDoHProxyConfig(dc))) == Success(dc)
    ensures UnmarshalHTTPOriginConfig(MarshalHTTPOriginConfig(hc)) == hc
    ensures UnmarshalWebSocketOriginConfig(MarshalWebSocketOriginConfig(wc)) == wc
  {
  }

  // ---------------------------------------------------------------------------------------
  // ReverseProxyConfig and its origin union

  /** The Go code dereferences `OriginConfigJSONHandler` before it switches on the origin:
      a nil handler panics, so every caller must supply one. */
  predicate HandlerSet(p: ReverseProxyConfig) {
    p.originConfigJSONHandler.Some?
  }

  /** A reverse-proxy config whose handler holds one of the three registered origins. */
  predicate HasOrigin(p: ReverseProxyConfig) {
    p.originConfigJSONHandler.Some? && p.originConfigJSONHandler.value.originConfig.Some?
  }

  /** The error for a handler whose OriginConfig is nil (`%T` of nil prints "<nil>"). */
  const UnknownOriginConfigType: Error := Errorf("Unknown type for config: <nil>")

  /** The union arm that carries an origin: exactly the arm of its variant. */
  function OriginArm(o: OriginConfig): (u: Wire.ReverseProxyConfigOrigin)
    ensures u.Http? <==> o.HTTPOrigin?
    ensures u.Websocket? <==> o.WebSocketOrigin?
    ensures u.HelloWorld? <==> o.HelloWorldOrigin?
  {
    match o
    case HTTPOrigin(c) => Wire.Http(Wire.Present(MarshalHTTPOriginConfig(c)))
    case WebSocketOrigin(c) => Wire.Websocket(Wire.Present(MarshalWebSocketOriginConfig(c)))
    case HelloWorldOrigin => Wire.HelloWorld(Wire.Present(Wire.HelloWorldOriginConfig))
  }

  /** What MarshalReverseProxyConfig writes, or the error it returns. */
  function EncodeReverseProxyConfig(p: ReverseProxyConfig): (r: Result<Wire.ReverseProxyConfig, Error>)
    requires HandlerSet(p)
    ensures r.Failure? <==> !HasOrigin(p)
    ensures r.Failure? ==> r.error == UnknownOriginConfigType
  {
    match p.originConfigJSONHandler.value.originConfig
    case None => Failure(UnknownOriginConfigType)
    case Some(o) =>
      Success(Wire.ReverseProxyConfig(
        Wire.Present(p.tunnelHostname), OriginArm(o), p.retries, p.connectionTimeout, p.compressionQuality))
  }

  /** The encoded union arm is the one of the origin's concrete type, and the scalar fields
      are carried unchanged (the timeout as its nanosecond count). */
  lemma EncodeReverseProxyConfigArm(p: ReverseProxyConfig)
    requires HasOrigin(p)
    ensures EncodeReverseProxyConfig(p).Success?
    ensures var w := EncodeReverseProxyConfig(p).value;
            var o := p.originConfigJSONHandler.value.originConfig.value;
            && w.origin.Which() == OriginTypeOf(o)
            && w.tunnelHostname == Wire.Present(p.tunnelHostname)
            && w.retries == p.retries
            && w.connectionTimeout == p.connectionTimeout
            && w.compressionQuality == p.compressionQuality
  {
  }

  function UnmarshalReverseProxyConfig(s: Wire.ReverseProxyConfig): (r: Result<ReverseProxyConfig, Error>)
    ensures r.Failure? <==>
      || s.tunnelHostname.Corrupt?
      || (s.origin.Http? && s.origin.http.Corrupt?)
      || (s.origin.Websocket? && s.origin.websocket.Corrupt?)
      || (s.origin.HelloWorld? && s.origin.helloWorld.Corrupt?)
    ensures r.Success? ==>
      && r.value.tunnelHostname == s.tunnelHostname.value
      && r.value.retries == s.retries
      && r.value.connectionTimeout == s.connectionTimeout
      && r.value.compressionQuality == s.compressionQuality
      && (r.value.originConfigJSONHandler.None? <==> s.origin.UnknownOrigin?)
  {
    match s.tunnelHostname
    case Corrupt => Failure(WireError("tunnelHostname"))
    case Present(tunnelHostname) =>
      var handler :-
        match s.origin
        case Http(Corrupt) => Failure(WireError("origin.http"))
        case Http(Present(w)) =>
          Success(Some(OriginConfigJSONHandler(Some(HTTPOrigin(UnmarshalHTTPOriginConfig(w))))))
        case Websocket(Corrupt) => Failure(WireError("origin.websocket"))
        case Websocket(Present(w)) =>
          Success(Some(OriginConfigJSONHandler(Some(WebSocketOrigin(UnmarshalWebSocketOriginConfig(w))))))
        case HelloWorld(Corrupt) => Failure(WireError("origin.helloWorld"))
        case HelloWorld(Present(_)) =>
          Success(Some(OriginConfigJSONHandler(Some(HelloWorldOrigin))))
        case UnknownOrigin(_) =>
          // no default arm: the handler stays nil and no error is returned
          Success(None);
      Success(ReverseProxyConfig(tunnelHostname, handler, s.retries, s.connectionTimeout, s.compressionQuality))
  }

  /** For each of the three origin variants, decoding what was encoded gives back the config. */
  lemma ReverseProxyConfigRoundTrip(p: ReverseProxyConfig)
    requires HasOrigin(p)
    ensures EncodeReverseProxyConfig(p).Success?
    ensures UnmarshalReverseProxyConfig(EncodeReverseProxyConfig(p).value) == Success(p)
  {
  }

  /** A union tag outside the three arms decodes without error, to a nil handler. */
  lemma UnknownOriginDecodesToNilHandler(s: Wire.ReverseProxyConfig)
    requires s.origin.UnknownOrigin? && s.tunnelHostname.Present?
    ensures UnmarshalReverseProxyConfig(s)
         == Success(ReverseProxyConfig(
              s.tunnelHostname.value, None, s.retries, s.connectionTimeout, s.compressionQuality))
  {
  }

  /** A config built by NewReverseProxyConfig always encodes, and decodes back to itself. */
  lemma NewReverseProxyConfigRoundTrip(
    tunnelHostname: string, originConfig: Option<OriginConfig>,
    retries: uint64, connectionTimeout: Duration, compressionQuality: uint64)
    requires NewReverseProxyConfig(tunnelHostname, originConfig, retries, connectionTimeout, compressionQuality).Success?
    ensures var p := NewReverseProxyConfig(tunnelHostname, originConfig, retries, connectionTimeout, compressionQuality).value;
            && HasOrigin(p)
            && EncodeReverseProxyConfig(p).Success?
            && UnmarshalReverseProxyConfig(EncodeReverseProxyConfig(p).value) == Success(p)
  {
  }

  /** A capnp ReverseProxyConfig struct being filled through its setters. */
  class ReverseProxyConfigBuilder {
    var tunnelHostname: Wire.Field<string>
    var origin: Wire.ReverseProxyConfigOrigin
    var retries: uint64
    var connectionTimeout: int64
    var compressionQuality: uint64

    function Struct(): Wire.ReverseProxyConfig
      reads this
    {
      Wire.ReverseProxyConfig(tunnelHostname, origin, retries, connectionTimeout, compressionQuality)
    }

    /** A view of an existing struct (capnp `At(i)` or a freshly allocated `NewX()`). */
    constructor At(s: Wire.ReverseProxyConfig)
      ensures Struct() == s
    {
      tunnelHostname := s.tunnelHostname;
      origin := s.origin;
      retries := s.retries;
      connectionTimeout := s.connectionTimeout;
      compressionQuality := s.compressionQuality;
    }
  }

  /** Writes the hostname, then the origin arm; only if the origin has a registered type
      are retries, connection timeout and compression quality written. */
  method MarshalReverseProxyConfig(s: ReverseProxyConfigBuilder, p: ReverseProxyConfig) returns (err: Option<Error>)
    requires HandlerSet(p)
    modifies s
    ensures err.None? <==> EncodeReverseProxyConfig(p).Success?
    ensures err.None? ==> s.Struct() == EncodeReverseProxyConfig(p).value
    ensures err.Some? ==>
      && err.value == EncodeReverseProxyConfig(p).error
      && s.Struct() == old(s.Struct()).(tunnelHostname := Wire.Present(p.tunnelHostname))
  {
    s.tunnelHostname := Wire.Present(p.tunnelHostname);
    match p.originConfigJSONHandler.value.originConfig {
      case Some(HTTPOrigin(config)) =>
        s.origin := Wire.Http(Wire.Present(MarshalHTTPOriginConfig(config)));
      case Some(WebSocketOrigin(config)) =>
        s.origin := Wire.Websocket(Wire.Present(MarshalWebSocketOriginConfig(config)));
      case Some(HelloWorldOrigin) =>
        s.origin := Wire.HelloWorld(Wire.Present(Wire.HelloWorldOriginConfig));
      case None =>
        return Some(UnknownOriginConfigType);
    }
    s.retries := p.retries;
    s.connectionTimeout := p.connectionTimeout;
    s.compressionQuality := p.compressionQuality;
    return None;
  }

  // ---------------------------------------------------------------------------------------
  // ClientConfig

  predicate HandlersSet(p: ClientConfig) {
    forall i :: 0 <= i < |p.reverseProxyConfigs| ==> HandlerSet(p.reverseProxyConfigs[i])
  }

  /** Every reverse-proxy config carries a registered origin: the configs that round-trip. */
  predicate Encodable(p: ClientConfig) {
    forall i :: 0 <= i < |p.reverseProxyConfigs| ==> HasOrigin(p.reverseProxyConfigs[i])
  }

  function EncodeDoHProxyConfigs(ps: seq<DoHProxyConfig>): seq<Wire.Field<Wire.DoHProxyConfig>> {
    seq(|ps|, i requires 0 <= i < |ps| => Wire.Present(MarshalDoHProxyConfig(ps[i])))
  }

  function EncodeReverseProxyConfigs(ps: seq<ReverseProxyConfig>): Result<seq<Wire.ReverseProxyConfig>, Error>
    requires forall i :: 0 <= i < |ps| ==> HandlerSet(ps[i])
  {
    Traverse(ps, EncodeReverseProxyConfig)
  }

  /** What MarshalClientConfig writes, or the error it returns. */
  function EncodeClientConfig(p: ClientConfig): Result<Wire.ClientConfig, Error>
    requires HandlersSet(p)
  {
    var reverseProxyConfigs :-
      EncodeReverseProxyConfigs(p.reverseProxyConfigs).MapFailure(e => Wrap("marshalReverseProxyConfigs error", e));
    Success(Wire.ClientConfig(
      p.version,
      Wire.Present(MarshalSupervisorConfig(p.supervisorConfig)),
      Wire.Present(MarshalEdgeConnectionConfig(p.edgeConnectionConfig)),
      Wire.Present(EncodeDoHProxyConfigs(p.dohProxyConfigs)),
      Wire.Present(reverseProxyConfigs)))
  }

  /** Encoding fails exactly when some reverse-proxy config has a nil origin; then the error
      is that of the first such config, and the encoded lists are otherwise exactly as long
      as the source lists, element i encoding source element i. */
  lemma EncodeClientConfigShape(p: ClientConfig)
    requires HandlersSet(p)
    ensures EncodeClientConfig(p).Success? <==> Encodable(p)
    ensures EncodeClientConfig(p).Failure? ==>
              EncodeClientConfig(p).error == Wrap("marshalReverseProxyConfigs error", UnknownOriginConfigType)
    ensures EncodeClientConfig(p).Success? ==>
              var w := EncodeClientConfig(p).value;
              && w.version == p.version
              && w.dohProxyConfigs.Present? && |w.dohProxyConfigs.value| == |p.dohProxyConfigs|
              && (forall i :: 0 <= i < |p.dohProxyConfigs| ==>
                    w.dohProxyConfigs.value[i] == Wire.Present(MarshalDoHProxyConfig(p.dohProxyConfigs[i])))
              && w.reverseProxyConfigs.Present? && |w.reverseProxyConfigs.value| == |p.reverseProxyConfigs|
              && (forall i :: 0 <= i < |p.reverseProxyConfigs| ==>
                    Success(w.reverseProxyConfigs.value[i]) == EncodeReverseProxyConfig(p.reverseProxyConfigs[i]))
  {
  }

  function DecodeDoHProxyConfigs(s: Wire.ClientConfig): Result<seq<DoHProxyConfig>, Error> {
    match s.dohProxyConfigs
    case Corrupt => Failure(WireError("dohProxyConfigs"))
    case Present(list) => Traverse(list, UnmarshalDoHProxyConfig)
  }

  function DecodeReverseProxyConfigs(s: Wire.ClientConfig): Result<seq<ReverseProxyConfig>, Error> {
    match s.reverseProxyConfigs
    case Corrupt => Failure(WireError("reverseProxyConfigs"))
    case Present(list) => Traverse(list, UnmarshalReverseProxyConfig)
  }

  /** What UnmarshalClientConfig returns. */
  function DecodeClientConfig(s: Wire.ClientConfig): Result<ClientConfig, Error> {
    var supervisorConfig :-
      match s.supervisorConfig
      case Corrupt => Failure(Wrap("failed to get SupervisorConfig", WireError("supervisorConfig")))
      case Present(w) => Success(UnmarshalSupervisorConfig(w));
    var edgeConnectionConfig :-
      match s.edgeConnectionConfig
      case Corrupt => Failure(Wrap("failed to get ConnectionManagerConfig", WireError("edgeConnectionConfig")))
      case Present(w) => Success(UnmarshalEdgeConnectionConfig(w));
    var dohProxyConfigs :-
      DecodeDoHProxyConfigs(s).MapFailure(e => Wrap("unmarshalDoHProxyConfigs error", e));
    var reverseProxyConfigs :-
      DecodeReverseProxyConfigs(s).MapFailure(e => Wrap("unmarshalReverseProxyConfigs error", e));
    Success(ClientConfig(s.version, supervisorConfig, edgeConnectionConfig, dohProxyConfigs, reverseProxyConfigs))
  }

  /** Decoding preserves the length and the order of both lists. */
  lemma DecodeClientConfigPreservesLists(s: Wire.ClientConfig)
    requires DecodeClientConfig(s).Success?
    ensures var p := DecodeClientConfig(s).value;
            && p.version == s.version
            && s.dohProxyConfigs.Present? && |p.dohProxyConfigs| == |s.dohProxyConfigs.value|
            && (forall i :: 0 <= i < |p.dohProxyConfigs| ==>
                  Success(p.dohProxyConfigs[i]) == UnmarshalDoHProxyConfig(s.dohProxyConfigs.value[i]))
            && s.reverseProxyConfigs.Present? && |p.reverseProxyConfigs| == |s.reverseProxyConfigs.value|
            && (forall i :: 0 <= i < |p.reverseProxyConfigs| ==>
                  Success(p.reverseProxyConfigs[i]) == UnmarshalReverseProxyConfig(s.reverseProxyConfigs.value[i]))
  {
  }

  /** Decoding an encoded configuration gives back the version, both sub-configurations and
      both lists, for every configuration whose origins are all registered variants. */
  lemma {:induction false} ClientConfigRoundTrip(p: ClientConfig)
    requires HandlersSet(p) && Encodable(p)
    ensures EncodeClientConfig(p).Success?
    ensures DecodeClientConfig(EncodeClientConfig(p).value) == Success(p)
  {
    EncodeClientConfigShape(p);
    var w := EncodeClientConfig(p).value;
    var doh := DecodeDoHProxyConfigs(w);
    assert doh.Success? by {
      forall i | 0 <= i < |w.dohProxyConfigs.value|
        ensures UnmarshalDoHProxyConfig(w.dohProxyConfigs.value[i]).Success?
      {
      }
    }
    assert doh.value == p.dohProxyConfigs;
    var rps := DecodeReverseProxyConfigs(w);
    forall i | 0 <= i < |p.reverseProxyConfigs|
      ensures UnmarshalReverseProxyConfig(w.reverseProxyConfigs.value[i]) == Success(p.reverseProxyConfigs[i])
    {
      ReverseProxyConfigRoundTrip(p.reverseProxyConfigs[i]);
    }
    assert rps.Success?;
    assert rps.value == p.reverseProxyConfigs;
  }

  /** A decoded configuration re-encodes to the same wire struct when it was well formed:
      every pointer readable and every origin tag known. */
  lemma {:induction false} ClientConfigReencodes(s: Wire.ClientConfig)
    requires DecodeClientConfig(s).Success?
    requires forall i :: 0 <= i < |s.reverseProxyConfigs.value| ==> !s.reverseProxyConfigs.value[i].origin.UnknownOrigin?
    ensures HandlersSet(DecodeClientConfig(s).value)
    ensures EncodeClientConfig(DecodeClientConfig(s).value) == Success(s)
  {
    DecodeClientConfigPreservesLists(s);
    var p := DecodeClientConfig(s).value;
    var list := s.reverseProxyConfigs.value;
    forall i | 0 <= i < |list|
      ensures HasOrigin(p.reverseProxyConfigs[i])
      ensures EncodeReverseProxyConfig(p.reverseProxyConfigs[i]) == Success(list[i])
    {
      var q := p.reverseProxyConfigs[i];
      match list[i].origin
      case Http(h) =>
        assert q.originConfigJSONHandler.value.originConfig.value.http == UnmarshalHTTPOriginConfig(h.value);
      case Websocket(ws) =>
        assert q.originConfigJSONHandler.value.originConfig.value.websocket == UnmarshalWebSocketOriginConfig(ws.value);
      case HelloWorld(hw) =>
        assert hw.value == Wire.HelloWorldOriginConfig;
    }
    EncodeClientConfigShape(p);
    var w := EncodeClientConfig(p).value;
    assert w.supervisorConfig == s.supervisorConfig;
    assert w.edgeConnectionConfig == s.edgeConnectionConfig;
    assert w.dohProxyConfigs.value == s.dohProxyConfigs.value;
    assert w.reverseProxyConfigs.value == list;
  }

  /** A capnp ClientConfig struct being filled through its setters. */
  class ClientConfigBuilder {
    var version: uint64
    var supervisorConfig: Wire.Field<Wire.SupervisorConfig>
    var edgeConnectionConfig: Wire.Field<Wire.EdgeConnectionConfig>
    var dohProxyConfigs: Wire.Field<seq<Wire.Field<Wire.DoHProxyConfig>>>
    var reverseProxyConfigs: Wire.Field<seq<Wire.ReverseProxyConfig>>

    function Struct(): Wire.ClientConfig
      reads this
    {
      Wire.ClientConfig(version, supervisorConfig, edgeConnectionConfig, dohProxyConfigs, reverseProxyConfigs)
    }

    /** A freshly allocated struct: every field reads as its zero value. */
    constructor ()
      ensures Struct() == Wire.ZeroClientConfig()
    {
      var z := Wire.ZeroClientConfig();
      version := z.version;
      supervisorConfig := z.supervisorConfig;
      edgeConnectionConfig := z.edgeConnectionConfig;
      dohProxyConfigs := z.dohProxyConfigs;
      reverseProxyConfigs := z.reverseProxyConfigs;
    }
  }

  /** Allocates the DoH list with one zeroed struct per config, then fills element i from
      config i. */
  method MarshalDoHProxyConfigs(s: ClientConfigBuilder, dohProxyConfigs: seq<DoHProxyConfig>)
    modifies s
    ensures s.Struct() == old(s.Struct()).(dohProxyConfigs := Wire.Present(EncodeDoHProxyConfigs(dohProxyConfigs)))
  {
    var n := |dohProxyConfigs|;
    s.dohProxyConfigs := Wire.Present(seq(n, _ => Wire.Present(Wire.ZeroDoHProxyConfig())));
    for i := 0 to n
      invariant s.dohProxyConfigs.Present? && |s.dohProxyConfigs.value| == n
      invariant forall j :: 0 <= j < i ==>
                  s.dohProxyConfigs.value[j] == Wire.Present(MarshalDoHProxyConfig(dohProxyConfigs[j]))
      invariant s.Struct() == old(s.Struct()).(dohProxyConfigs := s.dohProxyConfigs)
    {
      s.dohProxyConfigs := Wire.Present(
        s.dohProxyConfigs.value[i := Wire.Present(MarshalDoHProxyConfig(dohProxyConfigs[i]))]);
    }
    assert s.dohProxyConfigs.value == EncodeDoHProxyConfigs(dohProxyConfigs);
  }

  /** Allocates the reverse-proxy list, then marshals config i into element i; the first
      config that fails aborts the loop, leaving that element partly written and the
      following ones zero. */
  method MarshalReverseProxyConfigs(s: ClientConfigBuilder, reverseProxyConfigs: seq<ReverseProxyConfig>)
    returns (err: Option<Error>)
    requires forall i :: 0 <= i < |reverseProxyConfigs| ==> HandlerSet(reverseProxyConfigs[i])
    modifies s
    ensures var t := EncodeReverseProxyConfigs(reverseProxyConfigs);
            && (err.None? <==> t.Success?)
            && (err.None? ==> s.Struct() == old(s.Struct()).(reverseProxyConfigs := Wire.Present(t.value)))
            && (err.Some? ==> err.value == t.error)
    ensures err.Some? ==>
      var k := FirstFailure(reverseProxyConfigs, EncodeReverseProxyConfig);
      && s.Struct() == old(s.Struct()).(reverseProxyConfigs := s.reverseProxyConfigs)
      && s.reverseProxyConfigs.Present? && |s.reverseProxyConfigs.value| == |reverseProxyConfigs|
      && (forall j :: 0 <= j < k ==>
            Success(s.reverseProxyConfigs.value[j]) == EncodeReverseProxyConfig(reverseProxyConfigs[j]))
      && s.reverseProxyConfigs.value[k]
           == Wire.ZeroReverseProxyConfig().(tunnelHostname := Wire.Present(reverseProxyConfigs[k].tunnelHostname))
      && (forall j :: k < j < |reverseProxyConfigs| ==> s.reverseProxyConfigs.value[j] == Wire.ZeroReverseProxyConfig())
  {
    var n := |reverseProxyConfigs|;
    s.reverseProxyConfigs := Wire.Present(seq(n, _ => Wire.ZeroReverseProxyConfig()));
    for i := 0 to n
      invariant s.reverseProxyConfigs.Present? && |s.reverseProxyConfigs.value| == n
      invariant forall j :: 0 <= j < i ==>
                  Success(s.reverseProxyConfigs.value[j]) == EncodeReverseProxyConfig(reverseProxyConfigs[j])
      invariant forall j :: i <= j < n ==> s.reverseProxyConfigs.value[j] == Wire.ZeroReverseProxyConfig()
      invariant s.Struct() == old(s.Struct()).(reverseProxyConfigs := s.reverseProxyConfigs)
    {
      var element := new ReverseProxyConfigBuilder.At(s.reverseProxyConfigs.value[i]);
      var e := MarshalReverseProxyConfig(element, reverseProxyConfigs[i]);
      s.reverseProxyConfigs := Wire.Present(s.reverseProxyConfigs.value[i := element.Struct()]);
      if e.Some? {
        FirstFailureAt(reverseProxyConfigs, EncodeReverseProxyConfig, i);
        return e;
      }
    }
    FirstFailureAt(reverseProxyConfigs, EncodeReverseProxyConfig, n);
    assert s.reverseProxyConfigs.value == EncodeReverseProxyConfigs(reverseProxyConfigs).value;
    return None;
  }

  /** Sets the version, fills both sub-configurations, then the DoH list and the
      reverse-proxy list; an error in the last list is returned wrapped, with everything
      before it already written. */
  method MarshalClientConfig(s: ClientConfigBuilder, p: ClientConfig) returns (err: Option<Error>)
    requires HandlersSet(p)
    modifies s
    ensures err.None? <==> EncodeClientConfig(p).Success?
    ensures err.None? ==> s.Struct() == EncodeClientConfig(p).value
    ensures err.Some? ==>
      && err.value == EncodeClientConfig(p).error
      && s.version == p.version
      && s.supervisorConfig == Wire.Present(MarshalSupervisorConfig(p.supervisorConfig))
      && s.edgeConnectionConfig == Wire.Present(MarshalEdgeConnectionConfig(p.edgeConnectionConfig))
      && s.dohProxyConfigs == Wire.Present(EncodeDoHProxyConfigs(p.dohProxyConfigs))
  {
    s.version := p.version;
    s.supervisorConfig := Wire.Present(MarshalSupervisorConfig(p.supervisorConfig));
    s.edgeConnectionConfig := Wire.Present(MarshalEdgeConnectionConfig(p.edgeConnectionConfig));
    MarshalDoHProxyConfigs(s, p.dohProxyConfigs);
    var e := MarshalReverseProxyConfigs(s, p.reverseProxyConfigs);
    if e.Some? {
      return Some(Wrap("marshalReverseProxyConfigs error", e.value));
    }
    return None;
  }

  /** Reads the DoH list element by element, appending each decoded config. */
  method UnmarshalDoHProxyConfigs(s: Wire.ClientConfig) returns (r: Result<seq<DoHProxyConfig>, Error>)
    ensures r == DecodeDoHProxyConfigs(s)
  {
    if s.dohProxyConfigs.Corrupt? {
      return Failure(WireError("dohProxyConfigs"));
    }
    var list := s.dohProxyConfigs.value;
    var result: seq<DoHProxyConfig> := [];
    for i := 0 to |list|
      invariant |result| == i
      invariant forall j :: 0 <= j < i ==> Success(result[j]) == UnmarshalDoHProxyConfig(list[j])
    {
      var config := UnmarshalDoHProxyConfig(list[i]);
      if config.Failure? {
        FirstFailureAt(list, UnmarshalDoHProxyConfig, i);
        return Failure(config.error);
      }
      result := result + [config.value];
    }
    FirstFailureAt(list, UnmarshalDoHProxyConfig, |list|);
    assert result == Traverse(list, UnmarshalDoHProxyConfig).value;
    return Success(result);
  }

  /** Reads the reverse-proxy list element by element, appending each decoded config. */
  method UnmarshalReverseProxyConfigs(s: Wire.ClientConfig) returns (r: Result<seq<ReverseProxyConfig>, Error>)
    ensures r == DecodeReverseProxyConfigs(s)
  {
    if s.reverseProxyConfigs.Corrupt? {
      return Failure(WireError("reverseProxyConfigs"));
    }
    var list := s.reverseProxyConfigs.value;
    var result: seq<ReverseProxyConfig> := [];
    for i := 0 to |list|
      invariant |result| == i
      invariant forall j :: 0 <= j < i ==> Success(result[j]) == UnmarshalReverseProxyConfig(list[j])
    {
      var config := UnmarshalReverseProxyConfig(list[i]);
      if config.Failure? {
        FirstFailureAt(list, UnmarshalReverseProxyConfig, i);
        return Failure(config.error);
      }
      result := result + [config.value];
    }
    FirstFailureAt(list, UnmarshalReverseProxyConfig, |list|);
    assert result == Traverse(list, UnmarshalReverseProxyConfig).value;
    return Success(result);
  }

  method UnmarshalClientConfig(s: Wire.ClientConfig) returns (r: Result<ClientConfig, Error>)
    ensures r == DecodeClientConfig(s)
  {
    if s.supervisorConfig.Corrupt? {
      return Failure(Wrap("failed to get SupervisorConfig", WireError("supervisorConfig")));
    }
    var supervisorConfig := UnmarshalSupervisorConfig(s.supervisorConfig.value);
    if s.edgeConnectionConfig.Corrupt? {
      return Failure(Wrap("failed to get ConnectionManagerConfig", WireError("edgeConnectionConfig")));
    }
    var edgeConnectionConfig := UnmarshalEdgeConnectionConfig(s.edgeConnectionConfig.value);
    var dohProxyConfigs := UnmarshalDoHProxyConfigs(s);
    if dohProxyConfigs.Failure? {
      return Failure(Wrap("unmarshalDoHProxyConfigs error", dohProxyConfigs.error));
    }
    var reverseProxyConfigs := UnmarshalReverseProxyConfigs(s);
    if reverseProxyConfigs.Failure? {
      return Failure(Wrap("unmarshalReverseProxyConfigs error", reverseProxyConfigs.error));
    }
    return Success(ClientConfig(
      s.version, supervisorConfig, edgeConnectionConfig, dohProxyConfigs.value, reverseProxyConfigs.value));
  }
}
