/** The wire codec of the answer to UseConfiguration (tunnelrpc/pogs/config.go): a
    FailedConfig carries one of four sub-configurations in a union plus a reason, and a
    UseConfigurationResult carries a success flag plus a list of FailedConfigs. */
module PogsResult {
  import opened Wrappers
  import opened Types
  import opened Lists
  import opened Pogs
  import opened PogsCodec
  import Wire = TunnelRpc

  // ---------------------------------------------------------------------------------------
  // FailedConfig

  /** The union discriminant each sub-configuration kind is written under. */
  function KindWhich(c: FallibleConfig): uint16 {
    match c
    case Supervisor(_) => 0
    case EdgeConnection(_) => 1
    case DoH(_) => 2
    case ReverseProxy(_) => 3
  }

  /** A reverse-proxy config must carry a handler: the Go code dereferences it. */
  predicate FailedConfigMarshallable(p: FailedConfig) {
    p.config.Some? && p.config.value.ReverseProxy? ==> HandlerSet(p.config.value.reverseProxy)
  }

  /** The failed configs that encode: a known kind, and a registered origin for a reverse proxy. */
  predicate FailedConfigEncodable(p: FailedConfig) {
    p.config.Some? && (p.config.value.ReverseProxy? ==> HasOrigin(p.config.value.reverseProxy))
  }

  /** The error for a nil Config interface (`%T` of nil prints "<nil>"). */
  const UnknownFallibleConfigType: Error := Errorf("Unknown type for Config: <nil>")

  /** What MarshalFailedConfig writes, or the error it returns. */
  function EncodeFailedConfig(p: FailedConfig): (r: Result<Wire.FailedConfig, Error>)
    requires FailedConfigMarshallable(p)
    ensures r.Success? <==> FailedConfigEncodable(p)
    ensures p.config.None? ==> r == Failure(UnknownFallibleConfigType)
    ensures r.Success? ==> r.value.config.Which() == KindWhich(p.config.value) && r.value.reason == Wire.Present(p.reason)
  {
    var config :-
      match p.config
      case None => Failure(UnknownFallibleConfigType)
      case Some(Supervisor(c)) => Success(Wire.Supervisor(Wire.Present(MarshalSupervisorConfig(c))))
      case Some(EdgeConnection(c)) => Success(Wire.EdgeConnection(Wire.Present(MarshalEdgeConnectionConfig(c))))
      case Some(DoH(c)) => Success(Wire.Doh(Wire.Present(MarshalDoHProxyConfig(c))))
      case Some(ReverseProxy(c)) =>
        var rp :- EncodeReverseProxyConfig(c);
        Success(Wire.ReverseProxy(Wire.Present(rp)));
    Success(Wire.FailedConfig(config, Wire.Present(p.reason)))
  }

  /** What UnmarshalFailedConfig returns: the arm named by the discriminant, then the reason. */
  function UnmarshalFailedConfig(s: Wire.FailedConfig): (r: Result<FailedConfig, Error>)
    ensures s.config.UnknownConfig? ==> r == Failure(UnknownWhich("Unknown type for FailedConfig", s.config.which))
    ensures r.Success? <==>
      && s.reason.Present?
      && match s.config
         case Supervisor(f) => f.Present?
         case EdgeConnection(f) => f.Present?
         case Doh(f) => f.Present?
         case ReverseProxy(f) => f.Present? && UnmarshalReverseProxyConfig(f.value).Success?
         case UnknownConfig(_) => false
    ensures r.Success? ==>
      && r.value.config.Some?
      && KindWhich(r.value.config.value) == s.config.Which()
      && r.value.reason == s.reason.value
    ensures r.Success? && s.config.Supervisor? ==>
      r.value.config.value == Supervisor(UnmarshalSupervisorConfig(s.config.supervisor.value))
    ensures r.Success? && s.config.EdgeConnection? ==>
      r.value.config.value == EdgeConnection(UnmarshalEdgeConnectionConfig(s.config.edgeConnection.value))
    ensures r.Success? && s.config.Doh? ==>
      r.value.config.value == DoH(UnmarshalDoHProxyConfig(s.config.doh).value)
    ensures r.Success? && s.config.ReverseProxy? ==>
      r.value.config.value == ReverseProxy(UnmarshalReverseProxyConfig(s.config.reverseProxy.value).value)
  {
    var config :-
      match s.config
      case Supervisor(Corrupt) => Failure(Wrap("Cannot get SupervisorConfig from Config", WireError("supervisor")))
      case Supervisor(Present(w)) => Success(Supervisor(UnmarshalSupervisorConfig(w)))
      case EdgeConnection(Corrupt) => Failure(Wrap("Cannot get ConnectionManager from Config", WireError("edgeConnection")))
      case EdgeConnection(Present(w)) => Success(EdgeConnection(UnmarshalEdgeConnectionConfig(w)))
      case Doh(Corrupt) => Failure(Wrap("Cannot get Doh from Config", WireError("doh")))
      case Doh(Present(w)) =>
        var c := UnmarshalDoHProxyConfig(Wire.Present(w));
        Success(DoH(c.value))
      case ReverseProxy(Corrupt) => Failure(Wrap("Cannot get ReverseProxy from Config", WireError("reverseProxy")))
      case ReverseProxy(Present(w)) =>
        var c :- UnmarshalReverseProxyConfig(w).MapFailure(e => Wrap("Cannot UnmarshalReverseProxyConfig", e));
        Success(ReverseProxy(c))
      case UnknownConfig(which) => Failure(UnknownWhich("Unknown type for FailedConfig", which));
    match s.reason
    case Corrupt => Failure(Wrap("Cannot get Reason", WireError("reason")))
    case Present(reason) => Success(FailedConfig(Some(config), reason))
  }

  /** Every failed config that encodes decodes back to itself. */
  lemma FailedConfigRoundTrip(p: FailedConfig)
    requires FailedConfigEncodable(p)
    ensures EncodeFailedConfig(p).Success?
    ensures UnmarshalFailedConfig(EncodeFailedConfig(p).value) == Success(p)
  {
  }

  /** A failed config read off the wire re-encodes to the same wire struct, unless it is a
      reverse proxy whose origin tag is unknown (that one decodes to a nil handler). */
  lemma FailedConfigReencodes(s: Wire.FailedConfig)
    requires UnmarshalFailedConfig(s).Success?
    requires s.config.ReverseProxy? ==> !s.config.reverseProxy.value.origin.UnknownOrigin?
    ensures FailedConfigMarshallable(UnmarshalFailedConfig(s).value)
    ensures EncodeFailedConfig(UnmarshalFailedConfig(s).value) == Success(s)
  {
    if s.config.ReverseProxy? {
      var w := s.config.reverseProxy.value;
      var q := UnmarshalReverseProxyConfig(w).value;
      match w.origin
      case Http(h) =>
        assert q.originConfigJSONHandler.value.originConfig.value.http == UnmarshalHTTPOriginConfig(h.value);
      case Websocket(ws) =>
        assert q.originConfigJSONHandler.value.originConfig.value.websocket == UnmarshalWebSocketOriginConfig(ws.value);
      case HelloWorld(hw) =>
        assert hw.value == Wire.HelloWorldOriginConfig;
    }
  }

  /** A capnp FailedConfig struct being filled through its setters. */
  class FailedConfigBuilder {
    var config: Wire.FailedConfigConfig
    var reason: Wire.Field<string>

    function Struct(): Wire.FailedConfig
      reads this
    {
      Wire.FailedConfig(config, reason)
    }

    constructor At(s: Wire.FailedConfig)
      ensures Struct() == s
    {
      config := s.config;
      reason := s.reason;
    }
  }

  /** Allocates the arm of the config's kind and fills it; the reason is written only when
      that succeeded. A reverse-proxy config whose origin is nil leaves the new arm holding
      only its hostname. */
  method MarshalFailedConfig(s: FailedConfigBuilder, p: FailedConfig) returns (err: Option<Error>)
    requires FailedConfigMarshallable(p)
    modifies s
    ensures err.None? <==> EncodeFailedConfig(p).Success?
    ensures err.None? ==> s.Struct() == EncodeFailedConfig(p).value
    ensures err.Some? ==> err.value == EncodeFailedConfig(p).error && s.reason == old(s.reason)
    ensures err.Some? && p.config.None? ==> s.config == old(s.config)
    ensures err.Some? && p.config.Some? ==>
      s.config == Wire.ReverseProxy(Wire.Present(
        Wire.ZeroReverseProxyConfig().(tunnelHostname := Wire.Present(p.config.value.reverseProxy.tunnelHostname))))
  {
    if p.config.None? {
      return Some(UnknownFallibleConfigType);
    }
    var config := p.config.value;
    if config.Supervisor? {
      s.config := Wire.Supervisor(Wire.Present(MarshalSupervisorConfig(config.supervisor)));
    } else if config.EdgeConnection? {
      s.config := Wire.EdgeConnection(Wire.Present(MarshalEdgeConnectionConfig(config.edgeConnection)));
    } else if config.DoH? {
      s.config := Wire.Doh(Wire.Present(MarshalDoHProxyConfig(config.doh)));
    } else {
      var ss := new ReverseProxyConfigBuilder.At(Wire.ZeroReverseProxyConfig());
      var e := MarshalReverseProxyConfig(ss, config.reverseProxy);
      s.config := Wire.ReverseProxy(Wire.Present(ss.Struct()));
      if e.Some? {
        return e;
      }
    }
    s.reason := Wire.Present(p.reason);
    return None;
  }

  // ---------------------------------------------------------------------------------------
  // UseConfigurationResult

  predicate ResultMarshallable(p: UseConfigurationResult) {
    forall i :: 0 <= i < |p.failedConfigs| ==> FailedConfigMarshallable(p.failedConfigs[i])
  }

  predicate ResultEncodable(p: UseConfigurationResult) {
    forall i :: 0 <= i < |p.failedConfigs| ==> FailedConfigEncodable(p.failedConfigs[i])
  }

  /** What MarshalUseConfigurationResult writes, or the error it returns: the first failed
      config that cannot be encoded, wrapped with its index. */
  function EncodeUseConfigurationResult(p: UseConfigurationResult): Result<Wire.UseConfigurationResult, Error>
    requires ResultMarshallable(p)
  {
    var k := FirstFailure(p.failedConfigs, EncodeFailedConfig);
    var failedConfigs :-
      Traverse(p.failedConfigs, EncodeFailedConfig).MapFailure(e => WrapAt("Cannot MarshalFailedConfig at index", k, e));
    Success(Wire.UseConfigurationResult(p.success, Wire.Present(failedConfigs)))
  }

  /** Encoding fails exactly when some failed config cannot be encoded; the error names the
      first such index and carries that element's own error. */
  lemma EncodeUseConfigurationResultShape(p: UseConfigurationResult)
    requires ResultMarshallable(p)
    ensures EncodeUseConfigurationResult(p).Success? <==> ResultEncodable(p)
    ensures EncodeUseConfigurationResult(p).Failure? ==>
      exists k :: 0 <= k < |p.failedConfigs|
        && !FailedConfigEncodable(p.failedConfigs[k])
        && (forall j :: 0 <= j < k ==> FailedConfigEncodable(p.failedConfigs[j]))
        && EncodeUseConfigurationResult(p).error
           == WrapAt("Cannot MarshalFailedConfig at index", k, EncodeFailedConfig(p.failedConfigs[k]).error)
    ensures EncodeUseConfigurationResult(p).Success? ==>
      var w := EncodeUseConfigurationResult(p).value;
      && w.success == p.success
      && w.failedConfigs.Present? && |w.failedConfigs.value| == |p.failedConfigs|
  {
  }

  function DecodeFailedConfigs(list: seq<Wire.FailedConfig>): Result<seq<FailedConfig>, Error> {
    var k := FirstFailure(list, UnmarshalFailedConfig);
    Traverse(list, UnmarshalFailedConfig).MapFailure(e => WrapAt("Cannot UnmarshalFailedConfig at index", k, e))
  }

  /** What UnmarshalUseConfigurationResult returns. */
  function DecodeUseConfigurationResult(s: Wire.UseConfigurationResult): Result<UseConfigurationResult, Error> {
    match s.failedConfigs
    case Corrupt => Failure(Wrap("Cannot get FailedConfigs", WireError("failedConfigs")))
    case Present(list) =>
      var failedConfigs :- DecodeFailedConfigs(list);
      Success(UseConfigurationResult(s.success, failedConfigs))
  }

  /** A failed element is reported with its own index: every element before it decoded, and
      the wrapped cause is that element's error. */
  lemma DecodeErrorCarriesIndex(s: Wire.UseConfigurationResult)
    requires s.failedConfigs.Present? && DecodeUseConfigurationResult(s).Failure?
    ensures var list := s.failedConfigs.value;
      exists k :: 0 <= k < |list|
        && (forall j :: 0 <= j < k ==> UnmarshalFailedConfig(list[j]).Success?)
        && UnmarshalFailedConfig(list[k]).Failure?
        && DecodeUseConfigurationResult(s).error
           == WrapAt("Cannot UnmarshalFailedConfig at index", k, UnmarshalFailedConfig(list[k]).error)
  {
  }

  /** The success flag is copied on its own: it neither decides whether decoding succeeds
      nor changes the decoded list. */
  lemma DecodeSuccessIndependent(s: Wire.UseConfigurationResult, b: bool)
    ensures DecodeUseConfigurationResult(s.(success := b)).Success? == DecodeUseConfigurationResult(s).Success?
    ensures DecodeUseConfigurationResult(s).Success? ==>
      && DecodeUseConfigurationResult(s).value.success == s.success
      && DecodeUseConfigurationResult(s.(success := b)).value
         == DecodeUseConfigurationResult(s).value.(success := b)
  {
  }

  /** Every result whose failed configs all encode decodes back to itself. */
  lemma {:induction false} UseConfigurationResultRoundTrip(p: UseConfigurationResult)
    requires ResultEncodable(p)
    ensures ResultMarshallable(p) && EncodeUseConfigurationResult(p).Success?
    ensures DecodeUseConfigurationResult(EncodeUseConfigurationResult(p).value) == Success(p)
  {
    EncodeUseConfigurationResultShape(p);
    var fcs := p.failedConfigs;
    var list := EncodeUseConfigurationResult(p).value.failedConfigs.value;
    assert forall i :: 0 <= i < |fcs| ==> Success(list[i]) == EncodeFailedConfig(fcs[i]);
    forall i | 0 <= i < |fcs|
      ensures UnmarshalFailedConfig(list[i]) == Success(fcs[i])
    {
      FailedConfigRoundTrip(fcs[i]);
    }
    var t := Traverse(list, UnmarshalFailedConfig);
    assert t.Success?;
    assert t.value == fcs;
  }

  /** A capnp UseConfigurationResult struct being filled through its setters. */
  class UseConfigurationResultBuilder {
    var success: bool
    var failedConfigs: Wire.Field<seq<Wire.FailedConfig>>

    function Struct(): Wire.UseConfigurationResult
      reads this
    {
      Wire.UseConfigurationResult(success, failedConfigs)
    }

    /** A freshly allocated struct (`NewResult()`): every field reads as its zero value. */
    constructor ()
      ensures Struct() == Wire.ZeroUseConfigurationResult()
    {
      success := false;
      failedConfigs := Wire.Present([]);
    }
  }

  /** Allocates the list, marshals failed config i into element i, and sets the success flag
      only after the whole list was written; the first element that fails aborts with its
      index, leaving the flag as it was. */
  method MarshalUseConfigurationResult(s: UseConfigurationResultBuilder, p: UseConfigurationResult)
    returns (err: Option<Error>)
    requires ResultMarshallable(p)
    modifies s
    ensures err.None? <==> EncodeUseConfigurationResult(p).Success?
    ensures err.None? ==> s.Struct() == EncodeUseConfigurationResult(p).value
    ensures err.Some? ==>
      && err.value == EncodeUseConfigurationResult(p).error
      && s.success == old(s.success)
      && s.failedConfigs.Present? && |s.failedConfigs.value| == |p.failedConfigs|
  {
    var fcs := p.failedConfigs;
    var n := |fcs|;
    s.failedConfigs := Wire.Present(seq(n, _ => Wire.ZeroFailedConfig()));
    for i := 0 to n
      invariant s.failedConfigs.Present? && |s.failedConfigs.value| == n
      invariant forall j :: 0 <= j < i ==> Success(s.failedConfigs.value[j]) == EncodeFailedConfig(fcs[j])
      invariant s.success == old(s.success)
    {
      var element := new FailedConfigBuilder.At(s.failedConfigs.value[i]);
      var e := MarshalFailedConfig(element, fcs[i]);
      s.failedConfigs := Wire.Present(s.failedConfigs.value[i := element.Struct()]);
      if e.Some? {
        FirstFailureAt(fcs, EncodeFailedConfig, i);
        return Some(WrapAt("Cannot MarshalFailedConfig at index", i, e.value));
      }
    }
    FirstFailureAt(fcs, EncodeFailedConfig, n);
    assert s.failedConfigs.value == Traverse(fcs, EncodeFailedConfig).value;
    s.success := p.success;
    return None;
  }

  /** Reads the list element by element, appending each decoded failed config, then copies
      the success flag. */
  method UnmarshalUseConfigurationResult(s: Wire.UseConfigurationResult) returns (r: Result<UseConfigurationResult, Error>)
    ensures r == DecodeUseConfigurationResult(s)
  {
    if s.failedConfigs.Corrupt? {
      return Failure(Wrap("Cannot get FailedConfigs", WireError("failedConfigs")));
    }
    var list := s.failedConfigs.value;
    var failedConfigs: seq<FailedConfig> := [];
    for i := 0 to |list|
      invariant |failedConfigs| == i
      invariant forall j :: 0 <= j < i ==> Success(failedConfigs[j]) == UnmarshalFailedConfig(list[j])
    {
      var failedConfig := UnmarshalFailedConfig(list[i]);
      if failedConfig.Failure? {
        FirstFailureAt(list, UnmarshalFailedConfig, i);
        return Failure(WrapAt("Cannot UnmarshalFailedConfig at index", i, failedConfig.error));
      }
      failedConfigs := failedConfigs + [failedConfig.value];
    }
    FirstFailureAt(list, UnmarshalFailedConfig, |list|);
    assert failedConfigs == Traverse(list, UnmarshalFailedConfig).value;
    return Success(UseConfigurationResult(s.success, failedConfigs));
  }
}
