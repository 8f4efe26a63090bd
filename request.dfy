/** The request client of background.js: `setMinPollInterval`,
    `getAccessToken` and the decision logic of `apiRequest`.  The network
    call itself (`fetch`) is an input: its outcome is given as a
    `FetchOutcome`. */
module Request {
  import opened Wrappers

  /** Initial value of POLL_INTERVAL: ten minutes, in milliseconds. */
  const DefaultPollInterval: int := 60 * 1000 * 10

  /** HTTP 205 Reset Content, the status the mark-read request requires. */
  const HttpStatusReset: int := 205

  /** The media type pinned in every request's Accept header. */
  const AcceptMediaType: string := "application/vnd.github.v3+json"

  /** An HTTP response as far as the client looks at it: its status and
      the X-Poll-Interval header, read as integral seconds.  `pollHint` is
      None when the header is missing, empty or not a number (for all of
      these the source leaves the interval alone). */
  datatype Response = Response(status: int, pollHint: Option<int>)

  /** What `fetch` gave back: a rejected promise, or a response. */
  datatype FetchOutcome = NetworkError | Responded(response: Response)

  /** Why `apiRequest` threw. */
  datatype RequestError =
    | MissingToken              // getAccessToken found no token
    | NetworkFailure            // fetch itself rejected
    | HttpStatus(status: int)   // response.ok was false
    | UnexpectedStatus(status: int) // ok, but not the required status

  /** The `options` object handed to fetch.  An empty `httpMethod` stands
      for a missing `method` property. */
  datatype RequestOptions = RequestOptions(httpMethod: string, headers: map<string, string>, body: Option<string>)

  /** A request as passed to fetch. */
  datatype Request = Request(url: string, options: RequestOptions)

  /** `requestOptions` left undefined. */
  const NoOptions: RequestOptions := RequestOptions("", map[], None)

  /** `response.ok`: a status in the range 200-299. */
  predicate IsOk(status: int) {
    200 <= status <= 299
  }

  /** JavaScript truthiness of the stored token: undefined and "" are falsy. */
  predicate HasToken(token: Option<string>) {
    token.Some? && token.value != ""
  }

  /** JavaScript truthiness of `callOptions && callOptions.requireStatus`. */
  predicate RequiresStatus(requireStatus: Option<int>) {
    requireStatus.Some? && requireStatus.value != 0
  }

  /** `getAccessToken`: the token, or MissingToken when it is not set. */
  function TokenResult(token: Option<string>): (r: Result<string, RequestError>)
    ensures r.Success? <==> HasToken(token)
    ensures r.Success? ==> token == Some(r.value) && r.value != ""
    ensures r.Failure? ==> r.error == MissingToken
  {
    if HasToken(token) then Success(token.value) else Failure(MissingToken)
  }

  /** Value of POLL_INTERVAL after `setMinPollInterval(interval)`: the
      larger of the two, so the interval can only grow. */
  function RaisedInterval(current: int, interval: int): (r: int)
    ensures r >= current && r >= interval
    ensures r == current || r == interval
    ensures interval <= current ==> r == current
  {
    if interval > current then interval else current
  }

  /** What `apiRequest` returns or throws, in the order the source checks:
      the token, the transport, `response.ok`, then the required status. */
  function RequestResult(token: Option<string>, fetched: FetchOutcome, requireStatus: Option<int>): (r: Result<Response, RequestError>)
    ensures r.Success? <==>
      HasToken(token) && fetched.Responded? && IsOk(fetched.response.status)
      && (RequiresStatus(requireStatus) ==> fetched.response.status == requireStatus.value)
    ensures r.Success? ==> r.value == fetched.response
    ensures !HasToken(token) ==> r == Failure(MissingToken)
    ensures HasToken(token) && fetched.NetworkError? ==> r == Failure(NetworkFailure)
    ensures HasToken(token) && fetched.Responded? && !IsOk(fetched.response.status) ==>
      r == Failure(HttpStatus(fetched.response.status))
    ensures (HasToken(token) && fetched.Responded? && IsOk(fetched.response.status)
             && RequiresStatus(requireStatus) && fetched.response.status != requireStatus.value) ==>
      r == Failure(UnexpectedStatus(fetched.response.status))
  {
    match TokenResult(token)
    case Failure(e) => Failure(e)
    case Success(_) =>
      match fetched
      case NetworkError => Failure(NetworkFailure)
      case Responded(response) =>
        if !IsOk(response.status) then Failure(HttpStatus(response.status))
        else if RequiresStatus(requireStatus) && response.status != requireStatus.value then
          Failure(UnexpectedStatus(response.status))
        else Success(response)
  }

  /** POLL_INTERVAL after an `apiRequest` that ended in `r`: only a
      successful response carrying a hint can change it, and then only
      upwards, to the hint converted from seconds to milliseconds. */
  function IntervalAfter(interval: int, r: Result<Response, RequestError>): (n: int)
    ensures n >= interval
    ensures r.Failure? || r.value.pollHint.None? ==> n == interval
    ensures n != interval ==> r.Success? && r.value.pollHint.Some? && n == r.value.pollHint.value * 1000
    ensures r.Success? && r.value.pollHint.Some? && r.value.pollHint.value * 1000 > interval ==>
      n == r.value.pollHint.value * 1000
  {
    if r.Success? && r.value.pollHint.Some? then RaisedInterval(interval, r.value.pollHint.value * 1000)
    else interval
  }

  /** The options `apiRequest` sends: method defaults to GET, the Accept
      header is pinned, Authorization carries the token, and every other
      header and the body are kept. */
  function PrepareOptions(options: RequestOptions, token: string): (o: RequestOptions)
    ensures o.httpMethod == if options.httpMethod == "" then "GET" else options.httpMethod
    ensures o.headers.Keys == options.headers.Keys + {"Accept", "Authorization"}
    ensures o.headers["Accept"] == AcceptMediaType
    ensures o.headers["Authorization"] == "token " + token
    ensures forall h :: h in options.headers && h != "Accept" && h != "Authorization" ==>
      o.headers[h] == options.headers[h]
    ensures o.body == options.body
  {
    RequestOptions(
      if options.httpMethod == "" then "GET" else options.httpMethod,
      options.headers["Accept" := AcceptMediaType]["Authorization" := "token " + token],
      options.body)
  }

  /** The request handed to fetch, or None when the token check threw first. */
  function SentRequest(url: string, options: RequestOptions, token: Option<string>): (s: Option<Request>)
    ensures s.Some? <==> HasToken(token)
    ensures s.Some? ==> s == Some(Request(url, PrepareOptions(options, token.value)))
  {
    match TokenResult(token)
    case Failure(_) => None
    case Success(t) => Some(Request(url, PrepareOptions(options, t)))
  }

  /** A 200 answer to a request that requires 205 fails, although it is ok. */
  lemma OkButNotRequiredFails(token: Option<string>, pollHint: Option<int>)
    requires HasToken(token)
    ensures RequestResult(token, Responded(Response(200, pollHint)), Some(HttpStatusReset))
      == Failure(UnexpectedStatus(200))
  {
  }

  /** A hint of 300 seconds against the default poll interval raises it to
      300000 ms; a later, smaller hint leaves it there. */
  lemma HintRaisesThenHolds(token: Option<string>)
    requires HasToken(token)
    ensures IntervalAfter(DefaultPollInterval, RequestResult(token, Responded(Response(200, Some(300))), None)) == DefaultPollInterval
    ensures IntervalAfter(60000, RequestResult(token, Responded(Response(200, Some(300))), None)) == 300000
    ensures IntervalAfter(300000, RequestResult(token, Responded(Response(200, Some(60))), None)) == 300000
  {
  }
}
