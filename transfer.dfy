/** The decision logic of the credential-transfer client (transfer/transfer.go): the URL the
    browser is sent to, the classification of one long-poll answer, and the bounded polling
    loop. HTTP itself is a parameter: the outcome of each GET is given, and URL rendering
    (url.URL.String) is a function passed in. */
module Transfer {
  import opened Wrappers
  import opened Types
  import opened HttpHeader

  /** url.Values, held decoded: query key to its list of values. */
  type Values = map<string, seq<string>>

  /** The fields of a url.URL that buildRequestURL reads or writes. */
  datatype UrlValue = UrlValue(scheme: string, host: string, path: string, query: Values)

  /** A *url.URL, updated in place. */
  class Url {
    var scheme: string
    var host: string
    var path: string
    var query: Values

    function Value(): UrlValue
      reads this
    {
      UrlValue(scheme, host, path, query)
    }

    constructor (u: UrlValue)
      ensures Value() == u
    {
      scheme, host, path, query := u.scheme, u.host, u.path, u.query;
    }
  }

  const RedirectUrlKey: string := "redirect_url"
  const CliPath: string := "cdn-cgi/access/cli"

  /** Values.Set: the key now holds exactly the one value. */
  function SetValue(q: Values, key: string, value: string): (r: Values)
    ensures key in r && r[key] == [value]
    ensures forall k :: k != key ==> (k in r <==> k in q)
    ensures forall k :: k != key && k in q ==> r[k] == q[k]
  {
    q[key := [value]]
  }

  /** Where buildRequestURL leaves the URL. Without cli only the query changes; with cli the
      query also gets redirect_url, the rendering of the URL after the first update, and
      the path becomes the cli endpoint. */
  function RequestTarget(u: UrlValue, key: string, value: string, cli: bool, render: UrlValue -> string): UrlValue {
    var first := u.(query := SetValue(u.query, key, value));
    if !cli then first
    else first.(query := SetValue(first.query, RedirectUrlKey, render(first)), path := CliPath)
  }

  /** Scheme and host are never touched, and the path only for cli. */
  lemma RequestTargetKeepsLocation(u: UrlValue, key: string, value: string, cli: bool, render: UrlValue -> string)
    ensures var t := RequestTarget(u, key, value, cli, render);
            && t.scheme == u.scheme && t.host == u.host
            && t.path == (if cli then CliPath else u.path)
  {
  }

  /** The key holds exactly [value] (previous values replaced) unless the cli update then
      overwrote it, which only happens when the key itself is redirect_url. */
  lemma RequestTargetSetsKey(u: UrlValue, key: string, value: string, cli: bool, render: UrlValue -> string)
    requires !cli || key != RedirectUrlKey
    ensures var t := RequestTarget(u, key, value, cli, render);
            key in t.query && t.query[key] == [value]
  {
  }

  /** Every other query parameter is kept with its values. */
  lemma RequestTargetKeepsOtherParameters(u: UrlValue, key: string, value: string, cli: bool, render: UrlValue -> string)
    ensures var t := RequestTarget(u, key, value, cli, render);
            forall k :: k != key && (!cli || k != RedirectUrlKey) ==>
              (k in t.query <==> k in u.query) && (k in u.query ==> t.query[k] == u.query[k])
  {
  }

  /** With cli, redirect_url is the URL as it was after the key was set. */
  lemma RequestTargetRedirect(u: UrlValue, key: string, value: string, render: UrlValue -> string)
    ensures var t := RequestTarget(u, key, value, true, render);
            RedirectUrlKey in t.query
            && t.query[RedirectUrlKey] == [render(u.(query := SetValue(u.query, key, value)))]
  {
  }

  /** Sets the key in the URL's query; for cli also records the resulting URL as
      redirect_url and points the path at the cli endpoint. Returns the rendered URL and
      never an error. */
  method BuildRequestURL(baseURL: Url, key: string, value: string, cli: bool, render: UrlValue -> string)
    returns (url: string, err: Option<string>)
    modifies baseURL
    ensures baseURL.Value() == RequestTarget(old(baseURL.Value()), key, value, cli, render)
    ensures url == render(baseURL.Value())
    ensures err.None?
  {
    var q := baseURL.query;
    q := SetValue(q, key, value);
    baseURL.query := q;
    if !cli {
      return render(baseURL.Value()), None;
    }
    q := SetValue(q, RedirectUrlKey, render(baseURL.Value()));
    baseURL.query := q;
    baseURL.path := CliPath;
    return render(baseURL.Value()), None;
  }

  // ---------------------------------------------------------------------------------------
  // Long polling

  /** The canonical form of "service-public-key", the key Header.Get looks up. */
  const ServicePublicKey: string := "Service-Public-Key"

  const PollAttempts: nat := 10

  /** An HTTP response: the status, the body as read to its end (or the read error), the headers. */
  datatype Response = Response(statusCode: int, body: Result<seq<byte>, string>, header: Header)

  /** What one client.Get produced. */
  datatype GetOutcome = GetFailed(cause: string) | Got(response: Response)

  datatype TransferError =
    | RequestError(cause: string)    // the GET itself failed
    | StatusError(statusCode: int)   // "error on request %d"
    | BodyReadError(cause: string)   // copying the body failed
    | FetchFailed                    // "Failed to fetch resource"

  /** The (buf, key, err) triple poll and transferRequest return. */
  datatype PollResult = PollResult(buf: seq<byte>, key: string, err: Option<TransferError>)

  /** An answer that says "not yet": no data and no error. */
  predicate Empty(r: PollResult) {
    r.err.None? && |r.buf| == 0
  }

  /** One poll: server errors are fatal, any other status but 200 means "not yet", and 200
      carries the resource and the key it is encrypted for. */
  function Poll(get: GetOutcome): (r: PollResult)
    ensures r.err.Some? ==> r.buf == [] && r.key == ""
    ensures get.GetFailed? ==> r.err == Some(RequestError(get.cause))
    ensures get.Got? && get.response.statusCode >= 500 ==> r.err == Some(StatusError(get.response.statusCode))
    ensures get.Got? && get.response.statusCode < 500 && get.response.statusCode != 200 ==> r == PollResult([], "", None)
    ensures get.Got? && get.response.statusCode == 200 ==>
      match get.response.body
      case Success(body) => r == PollResult(body, Get(get.response.header, ServicePublicKey), None)
      case Failure(cause) => r.err == Some(BodyReadError(cause))
  {
    match get
    case GetFailed(cause) => PollResult([], "", Some(RequestError(cause)))
    case Got(resp) =>
      if resp.statusCode >= 500 then PollResult([], "", Some(StatusError(resp.statusCode)))
      else if resp.statusCode != 200 then PollResult([], "", None)
      else match resp.body
        case Failure(cause) => PollResult([], "", Some(BodyReadError(cause)))
        case Success(body) => PollResult(body, Get(resp.header, ServicePublicKey), None)
  }

  /** Data only ever comes with status 200, and an error only from a failed request, a
      server error or a failed body read. */
  lemma PollClassification(get: GetOutcome)
    ensures |Poll(get).buf| > 0 ==> get.Got? && get.response.statusCode == 200
    ensures Poll(get).err.Some? <==>
      || get.GetFailed?
      || get.response.statusCode >= 500
      || (get.response.statusCode == 200 && get.response.body.Failure?)
  {
  }

  /** The first attempt from `from` on whose answer ends the loop, or PollAttempts when none does. */
  function FirstDecisive(gets: nat -> GetOutcome, from: nat): (k: nat)
    requires from <= PollAttempts
    ensures from <= k <= PollAttempts
    ensures forall i :: from <= i < k ==> Empty(Poll(gets(i)))
    ensures k < PollAttempts ==> !Empty(Poll(gets(k)))
    decreases PollAttempts - from
  {
    if from == PollAttempts then PollAttempts
    else if !Empty(Poll(gets(from))) then from
    else FirstDecisive(gets, from + 1)
  }

  /** What transferRequest returns when GET number i produces gets(i). */
  function TransferOutcome(gets: nat -> GetOutcome): PollResult {
    var k := FirstDecisive(gets, 0);
    if k < PollAttempts then Poll(gets(k)) else PollResult([], "", Some(FetchFailed))
  }

  /** Polls up to PollAttempts times, stopping at the first error or the first data. After
      data it reports success to the server; a failed report is only printed (`warned`). */
  method TransferRequest(gets: nat -> GetOutcome, putSuccess: Option<string>)
    returns (buf: seq<byte>, key: string, err: Option<TransferError>, attempts: nat, warned: bool)
    ensures PollResult(buf, key, err) == TransferOutcome(gets)
    ensures attempts == if FirstDecisive(gets, 0) < PollAttempts then FirstDecisive(gets, 0) + 1 else PollAttempts
    ensures warned <==> err.None? && |buf| > 0 && putSuccess.Some?
  {
    attempts := 0;
    warned := false;
    for i := 0 to PollAttempts
      invariant attempts == i
      invariant forall j :: 0 <= j < i ==> Empty(Poll(gets(j)))
    {
      var r := Poll(gets(i));
      attempts := attempts + 1;
      if r.err.Some? {
        FirstDecisiveIs(gets, i);
        return [], "", r.err, attempts, false;
      } else if |r.buf| > 0 {
        FirstDecisiveIs(gets, i);
        warned := putSuccess.Some?;
        return r.buf, r.key, None, attempts, warned;
      }
    }
    FirstDecisiveIs(gets, PollAttempts);
    return [], "", Some(FetchFailed), attempts, false;
  }

  /** FirstDecisive is the k the loop stops at: all answers before it empty, and it is the
      end or a decisive answer. */
  lemma FirstDecisiveIs(gets: nat -> GetOutcome, k: nat)
    requires k <= PollAttempts
    requires forall j :: 0 <= j < k ==> Empty(Poll(gets(j)))
    requires k < PollAttempts ==> !Empty(Poll(gets(k)))
    ensures FirstDecisive(gets, 0) == k
  {
  }

  /** When every one of the PollAttempts answers is "not yet", the transfer fails. */
  lemma AllEmptyFails(gets: nat -> GetOutcome)
    requires forall i :: 0 <= i < PollAttempts ==> Empty(Poll(gets(i)))
    ensures TransferOutcome(gets) == PollResult([], "", Some(FetchFailed))
  {
  }

  /** Only the first PollAttempts answers matter: two servers that agree on them give the
      same outcome, whatever they would have answered later. */
  lemma OnlyFirstAttemptsMatter(gets: nat -> GetOutcome, gets': nat -> GetOutcome)
    requires forall i :: 0 <= i < PollAttempts ==> gets(i) == gets'(i)
    ensures TransferOutcome(gets) == TransferOutcome(gets')
  {
  }

  /** A successful transfer returns data from an answer with status 200, and the key is that
      answer's service-public-key header. */
  lemma TransferSuccessCameFrom200(gets: nat -> GetOutcome)
    requires TransferOutcome(gets).err.None?
    ensures var k := FirstDecisive(gets, 0);
            && k < PollAttempts
            && gets(k).Got? && gets(k).response.statusCode == 200
            && gets(k).response.body == Success(TransferOutcome(gets).buf)
            && |TransferOutcome(gets).buf| > 0
            && TransferOutcome(gets).key == Get(gets(k).response.header, ServicePublicKey)
  {
  }
}
