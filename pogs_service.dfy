/** The two ends of the ClientService.UseConfiguration call (tunnelrpc/pogs/config.go): the
    client stub marshals a ClientConfig into the call's parameters and unmarshals the answer;
    the server stub unmarshals the parameters, acknowledges the call, hands the configuration
    to the implementation and marshals its result. The transport is a parameter. */
module PogsService {
  import opened Wrappers
  import opened Pogs
  import opened PogsCodec
  import opened PogsResult
  import Wire = TunnelRpc

  /** What the server stub does that is visible outside the message: it acknowledges the
      call, it runs the implementation on a configuration, and it writes a result. */
  datatype Event = Ack | Apply(config: ClientConfig) | WriteResult

  /** The ClientService implementation never reports a reverse-proxy failure without a
      handler (marshalling one would dereference nil). */
  ghost predicate ImplSound(impl: ClientConfig -> Result<UseConfigurationResult, Error>) {
    forall c :: impl(c).Success? ==> ResultMarshallable(impl(c).value)
  }

  /** The configuration the server stub hands to the implementation, or why it has none. */
  function DecodeParams(params: Wire.Field<Wire.ClientConfig>): Result<ClientConfig, Error> {
    match params
    case Corrupt => Failure(Wrap("Cannot get CloudflaredConfig parameter", WireError("clientServiceConfig")))
    case Present(w) =>
      DecodeClientConfig(w).MapFailure(e => Wrap("Cannot unmarshal tunnelrpc.CloudflaredConfig to *CloudflaredConfig", e))
  }

  /** The answer the server stub gives: an error, or the result struct it wrote. */
  function ServerResponse(
    params: Wire.Field<Wire.ClientConfig>, impl: ClientConfig -> Result<UseConfigurationResult, Error>)
    : Result<Wire.UseConfigurationResult, Error>
    requires ImplSound(impl)
  {
    var config :- DecodeParams(params);
    var result :- impl(config);
    EncodeUseConfigurationResult(result)
  }

  /** The server stub. A call whose parameters do not decode is neither acknowledged nor
      passed on; otherwise it is acknowledged before the implementation runs, an error of
      the implementation is returned as it is with no result written, and a result is
      marshalled into a fresh result struct. Whatever it writes without error decodes back
      to exactly what the implementation returned. */
  method ServeUseConfiguration(
    params: Wire.Field<Wire.ClientConfig>, impl: ClientConfig -> Result<UseConfigurationResult, Error>)
    returns (err: Option<Error>, trace: seq<Event>, results: Option<Wire.UseConfigurationResult>)
    requires ImplSound(impl)
    ensures err.None? <==> ServerResponse(params, impl).Success?
    ensures err.None? ==> results == Some(ServerResponse(params, impl).value)
    ensures err.Some? ==> err.value == ServerResponse(params, impl).error
    ensures DecodeParams(params).Failure? ==> trace == [] && results.None?
    ensures DecodeParams(params).Success? ==>
      var c := DecodeParams(params).value;
      && |trace| >= 2 && trace[..2] == [Ack, Apply(c)]
      && (impl(c).Failure? ==> trace == [Ack, Apply(c)] && results.None? && err == Some(impl(c).error))
      && (impl(c).Success? ==> trace == [Ack, Apply(c), WriteResult] && results.Some?)
    ensures err.None? ==>
      DecodeParams(params).Success? && DecodeUseConfigurationResult(results.value) == impl(DecodeParams(params).value)
  {
    trace := [];
    results := None;
    if params.Corrupt? {
      return Some(Wrap("Cannot get CloudflaredConfig parameter", WireError("clientServiceConfig"))), trace, results;
    }
    var pogsConfig := UnmarshalClientConfig(params.value);
    if pogsConfig.Failure? {
      err := Some(Wrap("Cannot unmarshal tunnelrpc.CloudflaredConfig to *CloudflaredConfig", pogsConfig.error));
      return;
    }
    trace := trace + [Ack];
    var userConfigResult := impl(pogsConfig.value);
    trace := trace + [Apply(pogsConfig.value)];
    if userConfigResult.Failure? {
      return Some(userConfigResult.error), trace, results;
    }
    var result := new UseConfigurationResultBuilder();
    err := MarshalUseConfigurationResult(result, userConfigResult.value);
    trace := trace + [WriteResult];
    results := Some(result.Struct());
    if err.None? {
      EncodeUseConfigurationResultShape(userConfigResult.value);
      UseConfigurationResultRoundTrip(userConfigResult.value);
    }
  }

  /** What the client stub returns, given the transport that carries the parameters to the
      server and brings back its answer. */
  function ClientOutcome(
    config: ClientConfig, remote: Wire.ClientConfig -> Result<Wire.UseConfigurationResult, Error>)
    : Result<UseConfigurationResult, Error>
    requires HandlersSet(config)
  {
    var params :- EncodeClientConfig(config);
    var retval :- remote(params);
    DecodeUseConfigurationResult(retval)
  }

  /** The client stub: marshals the configuration into fresh parameters, makes the call and
      unmarshals the answer. */
  method CallUseConfiguration(
    config: ClientConfig, remote: Wire.ClientConfig -> Result<Wire.UseConfigurationResult, Error>)
    returns (r: Result<UseConfigurationResult, Error>)
    requires HandlersSet(config)
    ensures r == ClientOutcome(config, remote)
  {
    var params := new ClientConfigBuilder();
    var err := MarshalClientConfig(params, config);
    if err.Some? {
      return Failure(err.value);
    }
    var retval := remote(params.Struct());
    if retval.Failure? {
      return Failure(retval.error);
    }
    r := UnmarshalUseConfigurationResult(retval.value);
  }

  /** Client and server stubs agree: over a transport that delivers the parameters to the
      server stub, the client gets exactly what the implementation returned, for every
      configuration and every result whose origins are registered variants. */
  lemma {:induction false} ClientServerRoundTrip(
    config: ClientConfig, impl: ClientConfig -> Result<UseConfigurationResult, Error>)
    requires HandlersSet(config) && Encodable(config) && ImplSound(impl)
    requires impl(config).Success? ==> ResultEncodable(impl(config).value)
    ensures ClientOutcome(config, w => ServerResponse(Wire.Present(w), impl)) == impl(config)
  {
    ClientConfigRoundTrip(config);
    var w := EncodeClientConfig(config).value;
    assert DecodeParams(Wire.Present(w)) == Success(config);
    if impl(config).Success? {
      UseConfigurationResultRoundTrip(impl(config).value);
    }
  }
}
