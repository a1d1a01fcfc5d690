/** The request rewriting the websocket proxy does before it dials the origin
    (websocket/websocket.go): the ws/wss scheme, the header set handed to the websocket
    library, and the string whose SHA-1 becomes Sec-WebSocket-Accept (section 1.3 of
    RFC 6455). */
module Websocket {
  import opened HttpHeader

  /** The parts of an *http.Request these helpers read. */
  datatype Request = Request(scheme: string, host: string, header: Header)

  /** The handshake headers the websocket library writes itself, in canonical form. */
  const StripWebsocketHeaders: seq<string> :=
    ["Upgrade", "Connection", "Sec-Websocket-Key", "Sec-Websocket-Version", "Sec-Websocket-Extensions"]

  /** The canonical form of "Sec-WebSocket-Key", the key Header.Get looks up. */
  const SecWebsocketKey: string := "Sec-Websocket-Key"

  /** The GUID section 1.3 of RFC 6455 appends to the client's key. */
  const WebsocketGUID: string := "258EAFA5-E914-47DA-95CA-C5AB0DC85B11"

  /** The scheme the websocket library is given: the websocket counterpart of http and
      https, any other scheme as it is. */
  function ChangeRequestScheme(req: Request): (scheme: string)
    ensures req.scheme == "https" ==> scheme == "wss"
    ensures req.scheme == "http" ==> scheme == "ws"
    ensures scheme == req.scheme <==> req.scheme != "http" && req.scheme != "https"
    ensures scheme != "http" && scheme != "https"
  {
    match req.scheme
    case "https" => "wss"
    case "http" => "ws"
    case _ => req.scheme
  }

  /** Applying the rewrite to an already rewritten request changes nothing. */
  lemma ChangeRequestSchemeIdempotent(req: Request)
    ensures ChangeRequestScheme(req.(scheme := ChangeRequestScheme(req))) == ChangeRequestScheme(req)
  {
  }

  /** The header set for the websocket dial: a copy of the request's headers without the
      five handshake headers, with Host set to the request's host alone. */
  method WebsocketHeaders(req: Request) returns (wsHeaders: Header)
    ensures forall key :: key in wsHeaders <==>
      key == "Host" || (key in req.header && key !in StripWebsocketHeaders)
    ensures forall key :: key in wsHeaders && key != "Host" ==> wsHeaders[key] == req.header[key]
    ensures "Host" in wsHeaders && wsHeaders["Host"] == [req.host]
  {
    wsHeaders := map[];
    var remaining := req.header.Keys;
    while remaining != {}
      invariant remaining <= req.header.Keys
      invariant forall key :: key in wsHeaders <==> key in req.header && key !in remaining
      invariant forall key :: key in wsHeaders ==> wsHeaders[key] == req.header[key]
      decreases remaining
    {
      var key :| key in remaining;
      wsHeaders := wsHeaders[key := req.header[key]];
      remaining := remaining - {key};
    }
    for i := 0 to |StripWebsocketHeaders|
      invariant forall key :: key in wsHeaders <==> key in req.header && key !in StripWebsocketHeaders[..i]
      invariant forall key :: key in wsHeaders ==> wsHeaders[key] == req.header[key]
    {
      wsHeaders := wsHeaders - {StripWebsocketHeaders[i]};
    }
    assert StripWebsocketHeaders[..|StripWebsocketHeaders|] == StripWebsocketHeaders;
    wsHeaders := wsHeaders["Host" := [req.host]];
  }

  /** The string generateAcceptKey hashes: the client's key, then the GUID. */
  function AcceptKeyHashInput(req: Request): (input: string)
    ensures |input| == |Get(req.header, SecWebsocketKey)| + |WebsocketGUID|
    ensures input[..|input| - |WebsocketGUID|] == Get(req.header, SecWebsocketKey)
    ensures input[|input| - |WebsocketGUID|..] == WebsocketGUID
  {
    Get(req.header, SecWebsocketKey) + WebsocketGUID
  }

  /** Requests with different keys hash different inputs, so the accept value can only
      collide through SHA-1 itself. */
  lemma AcceptKeyHashInputInjective(a: Request, b: Request)
    requires Get(a.header, SecWebsocketKey) != Get(b.header, SecWebsocketKey)
    ensures AcceptKeyHashInput(a) != AcceptKeyHashInput(b)
  {
  }
}
