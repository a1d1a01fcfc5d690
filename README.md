# cloudflared configuration RPC, websocket request rewriting and credential transfer, in Dafny

This project models three parts of the cloudflared tunnel agent and proves properties of
each.

1. The configuration model and its Cap'n Proto codec (`tunnelrpc/pogs/config.go`).
   - The control plane pushes a `ClientConfig` to the agent. It holds a version, a supervisor
     config, an edge-connection config, a list of DNS-over-HTTPS proxy configs and a list of
     reverse-proxy configs.
   - Each reverse proxy names at most one origin: HTTP, WebSocket or HelloWorld. Its handler,
     or the origin inside the handler, may be nil (see below).
   - The agent answers with a `UseConfigurationResult`: a success flag plus one `FailedConfig`
     per sub-configuration it could not apply.
   - The model covers versions, failure reasons, the JSON type keys, and the constructor
     `NewReverseProxyConfig`.
   - It covers every `Marshal*`/`Unmarshal*` function, and the client and server stubs of
     `ClientService.UseConfiguration`.
2. The rewriting the websocket proxy does before it dials an origin (`websocket/websocket.go`):
   - the ws/wss scheme;
   - the header set handed to the websocket library;
   - the string that is hashed into `Sec-WebSocket-Accept` (section 1.3 of RFC 6455).
3. The decision logic of the credential-transfer client (`transfer/transfer.go`):
   - the URL the browser is sent to;
   - how one long-poll answer is classified;
   - the bounded polling loop.

Files, one module each:

| file | module | contents |
|---|---|---|
| `wrappers.dfy` | `Wrappers` | `Option`, `Result` |
| `types.dfy` | `Types` | Go's fixed-width integers as subset types |
| `lists.dfy` | `Lists` | `Traverse` (map a fallible function over a list, stop at the first failure) and `FirstFailure` |
| `tunnelrpc.dfy` | `TunnelRpc` | the wire structs and unions, as the generated accessors present them |
| `pogs_config.dfy` | `Pogs` | the Go-side configuration types, versions, reasons, type names, `NewReverseProxyConfig` |
| `pogs_codec.dfy` | `PogsCodec` | the ClientConfig codec |
| `pogs_result.dfy` | `PogsResult` | the FailedConfig / UseConfigurationResult codec |
| `pogs_service.dfy` | `PogsService` | the client and server stubs |
| `http_header.dfy` | `HttpHeader` | `http.Header` and `Header.Get` |
| `websocket.dfy` | `Websocket` | scheme, headers, accept-key input |
| `transfer.dfy` | `Transfer` | request URL, poll, polling loop |

How the wire is modelled:

- A message struct is a datatype with one field per schema field.
- A pointer field whose accessor can fail is a `Field<T>`: `Present(value)`, or `Corrupt` when
  the accessor returns an error.
- The elements of the DoH list are `Field<T>` too, although `List.At` cannot fail. There
  `Corrupt` stands for an element struct that `pogs.Extract` cannot read, so that
  `UnmarshalDoHProxyConfig` keeps its error path. The reverse-proxy list holds plain structs.
- A union is a datatype with one constructor per arm, plus one constructor for a discriminant
  outside the schema.
- The leaf structs (supervisor, edge connection, DoH, HTTP origin, WebSocket origin) are
  copied field by field by pure `Marshal*`/`Unmarshal*` functions, in place of `pogs.Insert`
  and `pogs.Extract`.
- The Go functions that fill a struct through setters (`MarshalReverseProxyConfig`, the two
  list marshallers, `MarshalClientConfig`, `MarshalFailedConfig`,
  `MarshalUseConfigurationResult`) are module-level methods. Each takes a small builder object
  whose fields are that struct's fields and modifies it.
- Each such method is proved equal to an `Encode*` function.
- Each decoding loop is a method proved equal to a `Decode*` function.
- The round-trip lemmas relate the `Encode*` and `Decode*` functions.
- A freshly allocated struct reads as zero values, with a union on its first arm.

Two behaviours of the code worth knowing:

- **Unknown origin tag.** The origin `switch` of `UnmarshalReverseProxyConfig` has no default
  arm (tunnelrpc/pogs/config.go:541-572). A config whose origin discriminant is outside the
  three arms therefore decodes without error, with a nil `OriginConfigJSONHandler`
  (`UnknownOriginDecodesToNilHandler`). Re-marshalling such a config dereferences the nil
  handler.
- **Nil origin inside a handler.** A handler whose origin is nil is rejected on encoding with
  "Unknown type for config: <nil>". Retries, timeout and compression quality are then left
  unwritten.

## Model

| member | source | states |
|---|---|---|
| `Pogs.InitVersion` | tunnelrpc/pogs/config.go:41-43 | the initial version is not newer than any version: every version is newer-or-equal to it |
| `Pogs.IsNewerOrEqual` | tunnelrpc/pogs/config.go:45-47 | a version is newer-or-equal to itself and to version 0, and is not only when the compared version is strictly later |
| `Pogs.IsNewerOrEqualIsTotalOrder` | tunnelrpc/pogs/config.go:45-47 | newer-or-equal is reflexive, transitive, total and antisymmetric |
| `Pogs.FailReason` | tunnelrpc/pogs/config.go:67-69 | a reason starts with "Cannot apply " and ends with the error text (the same format at lines 91-93, 113-115 and 156-158) |
| `Pogs.FailReasonForm` | tunnelrpc/pogs/config.go:67-69 | a failure reason is exactly "Cannot apply ", then the kind's type name, then ", err: ", then the error text, with nothing else in between (the same format at lines 91-93, 113-115 and 156-158) |
| `Pogs.FailReasonDeterminesKindAndError` | tunnelrpc/pogs/config.go:156-158 | two equal reasons name the same kind and carry the same error text |
| `Pogs.JsonType` | tunnelrpc/pogs/config.go:77-79 | every sub-configuration's JSON type key ends in "_config" (also at lines 101-103, 123-125, 166-168) |
| `Pogs.JsonTypeDeterminesKind` | tunnelrpc/pogs/config.go:77-79 | the four sub-configuration kinds have distinct JSON type keys (also at lines 101-103, 123-125, 166-168) |
| `Pogs.OriginTypeString` | tunnelrpc/pogs/config.go:186-197 | an origin type prints "unknown" exactly when it is none of Http, WebSocket, HelloWorld |
| `Pogs.OriginTypeStringCases` | tunnelrpc/pogs/config.go:186-197 | the three origin types have distinct names, none "unknown", and every other value prints "unknown" |
| `Pogs.OriginJsonType` | tunnelrpc/pogs/config.go:250-252 | an origin config's JSON type is one of "Http", "WebSocket", "HelloWorld" (also at lines 279-281, 289-291) |
| `Pogs.OriginJsonTypeDeterminesVariant` | tunnelrpc/pogs/config.go:250-252 | an origin's JSON type is never "unknown" and identifies its variant (also at lines 279-281, 289-291) |
| `Pogs.NewReverseProxyConfig` | tunnelrpc/pogs/config.go:136-153 | fails exactly when the origin is nil, with the "originConfigUnmarshaler was null" error; otherwise every field is taken from the arguments and the handler wraps the origin |
| `PogsCodec.MarshalSupervisorConfig` | tunnelrpc/pogs/config.go:330-335 | every field is written to the wire struct unchanged |
| `PogsCodec.MarshalEdgeConnectionConfig` | tunnelrpc/pogs/config.go:337-342 | every field is written to the wire struct unchanged |
| `PogsCodec.MarshalDoHProxyConfig` | tunnelrpc/pogs/config.go:488-490 | every field is written to the wire struct unchanged, the upstreams in order |
| `PogsCodec.MarshalHTTPOriginConfig` | tunnelrpc/pogs/config.go:579-581 | every one of the twelve fields is written to the wire struct unchanged |
| `PogsCodec.MarshalWebSocketOriginConfig` | tunnelrpc/pogs/config.go:589-591 | every field is written to the wire struct unchanged |
| `PogsCodec.LeafConfigsRoundTrip` | tunnelrpc/pogs/config.go:330-342 | for each of the five leaf structs, extracting what was inserted gives back the model |
| `PogsCodec.UnmarshalSupervisorConfig` | tunnelrpc/pogs/config.go:407-411 | the extracted config marshals back to the wire struct it came from |
| `PogsCodec.UnmarshalEdgeConnectionConfig` | tunnelrpc/pogs/config.go:413-417 | the extracted config marshals back to the wire struct it came from |
| `PogsCodec.UnmarshalDoHProxyConfig` | tunnelrpc/pogs/config.go:492-496 | succeeds exactly when the struct is readable, and the result marshals back to it |
| `PogsCodec.UnmarshalHTTPOriginConfig` | tunnelrpc/pogs/config.go:583-587 | the extracted config marshals back to the wire struct it came from |
| `PogsCodec.UnmarshalWebSocketOriginConfig` | tunnelrpc/pogs/config.go:593-597 | the extracted config marshals back to the wire struct it came from |
| `PogsCodec.OriginArm` | tunnelrpc/pogs/config.go:500-524 | the union arm written is http, websocket or helloWorld exactly when the origin is HTTP, WebSocket or HelloWorld |
| `PogsCodec.EncodeReverseProxyConfig` | tunnelrpc/pogs/config.go:498-532 | encoding fails exactly when the handler holds no origin, and then with "Unknown type for config: <nil>" |
| `PogsCodec.EncodeReverseProxyConfigArm` | tunnelrpc/pogs/config.go:498-532 | the written discriminant is the origin's type; the hostname, retries, timeout in nanoseconds and compression quality are written unchanged |
| `PogsCodec.MarshalReverseProxyConfig` | tunnelrpc/pogs/config.go:498-532 | on success the struct is the encoding; on error only the hostname was written, so retries, timeout and quality are untouched |
| `PogsCodec.UnmarshalReverseProxyConfig` | tunnelrpc/pogs/config.go:534-577 | fails exactly when the hostname or the payload of a known arm is unreadable; otherwise copies the scalars, and the handler is nil exactly when the tag is unknown |
| `PogsCodec.ReverseProxyConfigRoundTrip` | tunnelrpc/pogs/config.go:498-577 | for each of the three origin variants, decoding the encoding gives back the config |
| `PogsCodec.UnknownOriginDecodesToNilHandler` | tunnelrpc/pogs/config.go:541-572 | an unknown origin tag decodes without error, to a nil handler with all other fields copied |
| `PogsCodec.NewReverseProxyConfigRoundTrip` | tunnelrpc/pogs/config.go:136-153 | every config NewReverseProxyConfig builds has an origin, encodes, and decodes back to itself |
| `PogsCodec.EncodeClientConfigShape` | tunnelrpc/pogs/config.go:302-370 | encoding fails exactly when some reverse proxy has a nil origin, with the wrapped first error; otherwise both lists keep their length and order, element by element |
| `PogsCodec.DecodeClientConfigPreservesLists` | tunnelrpc/pogs/config.go:372-451 | a decoded config has the wire version, and both lists keep the wire length and order, element by element |
| `PogsCodec.ClientConfigRoundTrip` | tunnelrpc/pogs/config.go:302-451 | decoding the encoding of a config whose origins are all registered gives back the config |
| `PogsCodec.ClientConfigReencodes` | tunnelrpc/pogs/config.go:302-451 | a decoded wire config with only known origin tags re-encodes to the same wire struct |
| `PogsCodec.MarshalDoHProxyConfigs` | tunnelrpc/pogs/config.go:344-356 | the list gets one element per config, element i encoding config i, and nothing else changes |
| `PogsCodec.MarshalReverseProxyConfigs` | tunnelrpc/pogs/config.go:358-370 | succeeds exactly when every config encodes; the first failure aborts, with elements before it encoded, its own element holding only the hostname, and later ones zero |
| `PogsCodec.MarshalClientConfig` | tunnelrpc/pogs/config.go:302-328 | the struct is the encoding; on error the version, both sub-configs and the DoH list are already written and the error is wrapped with "marshalReverseProxyConfigs error" |
| `PogsCodec.UnmarshalDoHProxyConfigs` | tunnelrpc/pogs/config.go:419-434 | the loop returns what decoding the DoH list gives: every element in order, or the first element's error |
| `PogsCodec.UnmarshalReverseProxyConfigs` | tunnelrpc/pogs/config.go:436-451 | the loop returns what decoding the reverse-proxy list gives: every element in order, or the first element's error |
| `PogsCodec.UnmarshalClientConfig` | tunnelrpc/pogs/config.go:372-405 | returns the decoded config, or the first failing step's error wrapped with that step's context |
| `PogsResult.EncodeFailedConfig` | tunnelrpc/pogs/config.go:680-723 | fails exactly when the kind is nil or a reverse proxy has no origin, and with "Unknown type for Config: <nil>" for a nil kind; on success the arm is that of the kind and the reason is written |
| `PogsResult.UnmarshalFailedConfig` | tunnelrpc/pogs/config.go:725-777 | succeeds exactly when the reason and the tagged arm are readable and a reverse-proxy arm decodes; an unknown tag is rejected with "Unknown type for FailedConfig"; a success has the kind of the wire tag, that arm's decoded payload and the wire reason |
| `PogsResult.FailedConfigReencodes` | tunnelrpc/pogs/config.go:680-777 | a wire failed config that decodes, and is not a reverse proxy with an unknown origin tag, re-encodes to the identical wire struct |
| `PogsResult.FailedConfigRoundTrip` | tunnelrpc/pogs/config.go:680-777 | a failed config of any of the four kinds decodes back to its kind, payload and reason |
| `PogsResult.MarshalFailedConfig` | tunnelrpc/pogs/config.go:680-723 | on success the struct is the encoding; on error the reason is untouched, and so is the config for a nil kind |
| `PogsResult.EncodeUseConfigurationResultShape` | tunnelrpc/pogs/config.go:453-466 | encoding fails exactly when some failed config cannot be encoded, and then names the first such index; otherwise the flag is copied and the list keeps its length |
| `PogsResult.DecodeErrorCarriesIndex` | tunnelrpc/pogs/config.go:468-486 | a decoding error is wrapped with the index of the first element that failed, all earlier elements having decoded |
| `PogsResult.DecodeSuccessIndependent` | tunnelrpc/pogs/config.go:468-486 | the success flag is copied as it is, and neither decides whether decoding succeeds nor changes the decoded list |
| `PogsResult.UseConfigurationResultRoundTrip` | tunnelrpc/pogs/config.go:453-486 | decoding the encoding gives back the flag and every failed config, in order |
| `PogsResult.MarshalUseConfigurationResult` | tunnelrpc/pogs/config.go:453-466 | on success the struct is the encoding; on error the flag is not yet written and the error carries the element's index |
| `PogsResult.UnmarshalUseConfigurationResult` | tunnelrpc/pogs/config.go:468-486 | the loop returns what decoding gives: the flag and every element in order, or the first error with its index |
| `PogsService.ServeUseConfiguration` | tunnelrpc/pogs/config.go:649-668 | parameters that do not decode give an error with no acknowledgement and no call; otherwise acknowledge, then run the implementation; its error is returned with no result written; a written result decodes back to what the implementation returned |
| `PogsService.CallUseConfiguration` | tunnelrpc/pogs/config.go:622-639 | marshals the config into fresh parameters, makes the call and decodes the answer; a marshalling or transport error is returned as it is |
| `PogsService.ClientServerRoundTrip` | tunnelrpc/pogs/config.go:622-668 | over a transport that delivers the parameters to the server stub, the client receives exactly what the implementation returned |
| `Websocket.ChangeRequestScheme` | websocket/websocket.go:194-203 | https becomes wss, http becomes ws, every other scheme is kept; the result is never http or https |
| `Websocket.ChangeRequestSchemeIdempotent` | websocket/websocket.go:194-203 | rewriting an already rewritten request's scheme changes nothing: applying it twice equals applying it once |
| `Websocket.WebsocketHeaders` | websocket/websocket.go:165-176 | the result holds every request header except the five handshake headers, with the same values, and Host is exactly [the request's host] |
| `Websocket.AcceptKeyHashInput` | websocket/websocket.go:188-190 | the hashed string is the request's Sec-WebSocket-Key value followed by the RFC 6455 GUID |
| `Transfer.RequestTargetSetsKey` | transfer/transfer.go:104-106 | the key holds exactly [value], previous values replaced |
| `Transfer.RequestTargetKeepsOtherParameters` | transfer/transfer.go:104-112 | every other query parameter is kept with its values |
| `Transfer.RequestTargetKeepsLocation` | transfer/transfer.go:103-115 | scheme and host are kept; the path becomes "cdn-cgi/access/cli" with cli and is kept without |
| `Transfer.RequestTargetRedirect` | transfer/transfer.go:111-112 | with cli, redirect_url is the rendering of the URL after the first query update |
| `Transfer.BuildRequestURL` | transfer/transfer.go:103-115 | the URL is updated in place to the request target, the returned string is its rendering, and no error is returned |
| `Transfer.Poll` | transfer/transfer.go:137-159 | a failed request or status >= 500 is an error; any other status except 200 is an empty answer; 200 gives the body and the service-public-key header, or the body read error |
| `Transfer.PollClassification` | transfer/transfer.go:146-158 | data only comes with status 200; an error comes exactly from a failed request, a server error or a failed body read |
| `Transfer.FirstDecisive` | transfer/transfer.go:122-131 | the loop stops at the first answer that is an error or data, within the 10 attempts |
| `Transfer.TransferRequest` | transfer/transfer.go:118-134 | the loop returns the first decisive answer within 10 polls, else "Failed to fetch resource"; it polls once per attempt up to that answer; the success report warns only on failure and changes nothing returned |
| `Transfer.AllEmptyFails` | transfer/transfer.go:133 | ten empty answers make the transfer fail with "Failed to fetch resource" |
| `Transfer.OnlyFirstAttemptsMatter` | transfer/transfer.go:120-122 | answers after the tenth never influence the outcome |
| `Transfer.TransferSuccessCameFrom200` | transfer/transfer.go:126-130 | a successful transfer returns the non-empty body of a 200 answer and that answer's service-public-key |

## Left out

- The Cap'n Proto runtime is not part of this model: segment allocation, pointer layout,
  promises, `rpc.Conn` and `Close`, and context cancellation. A failing accessor is `Corrupt`.
  A failing allocation or setter does not occur.
- `pogs.Insert` and `pogs.Extract` are reflection. They are explicit field copies here.
  Insertion never fails. Extraction fails only on a DoH list element that is `Corrupt`.
- In Go, `HelloWorldOriginConfig` goes through `Insert`/`Extract` of an empty struct. Here it
  is a constant arm.
- A nil `OriginConfigJSONHandler` makes the Go code dereference nil. The model makes that a
  precondition (`HandlerSet`, `FailedConfigMarshallable`, `ImplSound`) instead of a panic.
- Nil pointers to sub-configurations and results cannot be written down in the model, because
  these are plain values, not options. What Go does with a nil one (a panic in `pogs.Insert` or
  in a dereference) is not modelled. This covers:
  - the supervisor and edge-connection configs of a `ClientConfig`, and the elements of its two
    lists;
  - the elements of `UseConfigurationResult.FailedConfigs` (`[]*FailedConfig`,
    tunnelrpc/pogs/config.go:672), which `MarshalFailedConfig` dereferences at line 681;
  - a nil `*UseConfigurationResult` returned by the implementation (line 659), which
    `MarshalUseConfigurationResult` dereferences at line 454.
- Nil and empty slices are not distinguished. Pointer identity of the decoded configs is not
  modelled.
- The `Service()` methods of the origin configs are not modelled: TLS, CA pools, dialers,
  `url.Parse`. Neither are the `MarshalJSON` methods, `Version.String` or
  `ClientService_ServerToClient`.
- The whole `time.Duration` is modelled as its int64 nanosecond count.
- `PogsService.ServeUseConfiguration`: `Ack` is an event in the returned trace, not a call on
  the RPC options.
- `PogsService.ServeUseConfiguration`: a failing `NewResult` allocation does not occur.
- `PogsService.CallUseConfiguration`: the transport is a parameter function. Cancellation and
  transport concurrency are not modelled.
- websocket I/O is not modelled: `ClientConnect`, `HijackConnection`, `Stream`,
  `StartProxyServer`, `pinger`, `Conn.Read`/`Write` and `IsWebSocketUpgrade`. These are
  sockets, goroutines and timers.
- The SHA-1 and base64 step of `generateAcceptKey` (`sha1Base64`) is a library call. Only its
  input is modelled.
- `Websocket.WebsocketHeaders`: header keys are compared as given, without
  canonicalization. `Header.Del` canonicalizes its argument, and the five stripped names and
  "Host" are already canonical, so this changes nothing for them.
- `Websocket.AcceptKeyHashInput`: websocket/websocket.go:189 calls `Header.Get` with the
  non-canonical "Sec-WebSocket-Key". `Get` canonicalizes it to "Sec-Websocket-Key", and the
  model looks the value up under that canonical key (`SecWebsocketKey`) directly.
- `Transfer.BuildRequestURL`: the query is held decoded as a map. `url.Values.Encode` and
  `Query()` are taken to round-trip, so a malformed `RawQuery` whose bad pairs `Query()` would
  drop is not modelled.
- `Transfer.BuildRequestURL`: `url.URL.String` is the `render` parameter.
- `Transfer.RequestTargetSetsKey`: with cli and the key "redirect_url", the second `Set`
  overwrites the value. That is what the source does, so the lemma excludes that one key.
- `Transfer.TransferRequest`: the outcome of each GET is a parameter. The HTTP client, its
  60-second timeout, the `putSuccess` request and the stdout/stderr messages are not modelled.
  A failed success report appears only as the `warned` flag.
- `run`, `openBrowser`, the encrypter, base64 decoding and `ioutil.WriteFile` of
  `transfer/transfer.go` are not modelled. Neither is all of `transfer/login.go`. These are
  process, crypto and file I/O.
