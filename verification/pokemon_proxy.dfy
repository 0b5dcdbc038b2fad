/** The card-search proxy: one request handler that answers CORS pre-flight
    requests, validates `GET /cards?name=…&pageSize=…`, forwards it to the
    trading-card API with an optional API key, and relays the upstream status
    and body, or maps a transport failure to a 502 error envelope.

    The network call is not modelled: its result is the `Outcome` parameter,
    and the handler reports which upstream request (if any) it issued. */
module PokemonProxy {
  import opened JsString

  datatype Option<T> = None | Some(value: T)

  type Headers = map<string, string>

  /** A status code Node's `writeHead` accepts; fetch only ever reports these. */
  type StatusCode = s: int | 100 <= s <= 999 witness 200

  /** An inbound request after URL parsing: the HTTP method (`req.method`),
      the path name and, for each query key, its first (decoded) value, as
      `searchParams.get` gives it. */
  datatype Request = Request(verb: string, path: string, query: map<string, string>)

  /** The request sent upstream: the endpoint, its `q` and `pageSize`
      search parameters and the request headers. */
  datatype UpstreamRequest = UpstreamRequest(url: string, q: string, pageSize: string, headers: Headers)

  /** What awaiting `fetch(...)` and then `.text()` produced: a status and the
      body text, or the failure either of them raised. */
  datatype Outcome = Ok(status: StatusCode, body: string) | Failed(reason: string)

  /** A response body: none, raw text, or the JSON envelope `{"error": …}`. */
  datatype Body = NoBody | Text(text: string) | ErrorEnvelope(error: string)

  datatype Response = Response(status: int, headers: Headers, body: Body)

  /** What one request produces: the response written back, and the upstream
      request issued on the way, if any. */
  datatype Exchange = Exchange(response: Response, upstream: Option<UpstreamRequest>)

  const CardsPath := "/cards"
  const UpstreamUrl := "https://api.pokemontcg.io/v2/cards"
  const DefaultPageSize := "24"
  const MissingNameMessage := "Missing query parameter: name"
  const NotFoundMessage := "Not found"
  const FetchFailedPrefix := "Proxy fetch failed: "
  const JsonContentType := "application/json; charset=utf-8"

  /** The three CORS response headers (WHATWG Fetch Standard, section 3.2). */
  const CorsHeaders: Headers := map[
    "Access-Control-Allow-Origin" := "*",
    "Access-Control-Allow-Methods" := "GET,OPTIONS",
    "Access-Control-Allow-Headers" := "Content-Type"
  ]

  const JsonHeaders: Headers := CorsHeaders["Content-Type" := JsonContentType]

  /** `searchParams.get(key)`: the value, or null when the key is absent. */
  function QueryGet(query: map<string, string>, key: string): Option<string> {
    if key in query then Some(query[key]) else None
  }

  /** JavaScript's `v || fallback` on a string-or-null: null and '' are falsy. */
  function OrElse(v: Option<string>, fallback: string): (r: string)
    ensures v.Some? && v.value != "" ==> r == v.value
    ensures v.None? || v.value == "" ==> r == fallback
    ensures fallback != "" ==> r != ""
  {
    if v.Some? && v.value != "" then v.value else fallback
  }

  /** `(searchParams.get('name') || '').trim()` */
  function RequestedName(req: Request): (name: string)
    ensures "name" in req.query ==> name == Trim(req.query["name"])
    ensures "name" !in req.query ==> name == ""
    ensures name != "" ==> !IsWhitespace(name[0]) && !IsWhitespace(name[|name| - 1])
  {
    Trim(OrElse(QueryGet(req.query, "name"), ""))
  }

  /** `searchParams.get('pageSize') || '24'` */
  function RequestedPageSize(req: Request): (pageSize: string)
    ensures pageSize != ""
    ensures "pageSize" in req.query && req.query["pageSize"] != "" ==> pageSize == req.query["pageSize"]
    ensures pageSize != DefaultPageSize ==> "pageSize" in req.query && pageSize == req.query["pageSize"]
  {
    OrElse(QueryGet(req.query, "pageSize"), DefaultPageSize)
  }

  /** The pre-flight reply: no content, CORS headers only. */
  const Preflight := Response(204, CorsHeaders, NoBody)

  /** What `writeJson(res, status, {error: message})` sends. */
  function JsonResponse(status: int, message: string): (r: Response)
    ensures r.status == status && r.body == ErrorEnvelope(message)
    ensures r.headers.Keys == CorsHeaders.Keys + {"Content-Type"}
    ensures r.headers["Content-Type"] == JsonContentType
    ensures forall k | k in CorsHeaders :: r.headers[k] == CorsHeaders[k]
  {
    Response(status, JsonHeaders, ErrorEnvelope(message))
  }

  /** The headers object handed to `fetch`: `Accept: application/json`, and
      `X-Api-Key` only when a key is configured, never with an empty value. */
  function UpstreamHeaders(apiKey: string): (h: Headers)
    ensures "Accept" in h && h["Accept"] == "application/json"
    ensures "X-Api-Key" in h <==> apiKey != ""
    ensures "X-Api-Key" in h ==> h["X-Api-Key"] == apiKey
    ensures h.Keys <= {"Accept", "X-Api-Key"}
  {
    var accept := map["Accept" := "application/json"];
    if apiKey != "" then accept["X-Api-Key" := apiKey] else accept
  }

  /** The upstream request for a validated name: `q=name:<name>`, the page
      size as given, and the headers of `UpstreamHeaders`. */
  function Upstream(name: string, pageSize: string, apiKey: string): (up: UpstreamRequest)
    ensures up.url == UpstreamUrl && up.q == "name:" + name && up.pageSize == pageSize
    ensures up.headers == UpstreamHeaders(apiKey)
  {
    UpstreamRequest(UpstreamUrl, "name:" + name, pageSize, UpstreamHeaders(apiKey))
  }

  /** The reply once the upstream call has completed or failed. */
  function Relay(outcome: Outcome): (r: Response)
    ensures r.headers == JsonHeaders
    ensures r.body.Text? <==> outcome.Ok?
    ensures outcome.Ok? ==> r.status == outcome.status && r.body.text == outcome.body
    ensures outcome.Failed? ==> r == JsonResponse(502, FetchFailedPrefix + outcome.reason)
  {
    match outcome
    case Ok(status, text) => Response(status, JsonHeaders, Text(text))
    case Failed(reason) => JsonResponse(502, FetchFailedPrefix + reason)
  }

  /** The request callback as a function of the request, the configured API
      key (empty when none is configured) and what the upstream would answer. */
  function Handle(req: Request, apiKey: string, outcome: Outcome): (x: Exchange)
    ensures x.upstream.Some? ==> req.verb == "GET" && req.path == CardsPath
    ensures x.upstream.None? ==> x.response.status in {204, 400, 404}
    ensures x.upstream.Some? ==> x.response == Relay(outcome)
  {
    if req.verb == "OPTIONS" then
      Exchange(Preflight, None)
    else if req.verb == "GET" && req.path == CardsPath then
      var name := RequestedName(req);
      var pageSize := RequestedPageSize(req);
      if name == "" then
        Exchange(JsonResponse(400, MissingNameMessage), None)
      else
        Exchange(Relay(outcome), Some(Upstream(name, pageSize, apiKey)))
    else
      Exchange(JsonResponse(404, NotFoundMessage), None)
  }

  // ---------------------------------------------------------------------
  // The decision table of the handler

  /** OPTIONS is answered before the path is looked at: 204, no body, exactly
      the three CORS headers and no Content-Type, and nothing goes upstream. */
  lemma PreflightOnAnyPath(req: Request, apiKey: string, outcome: Outcome)
    requires req.verb == "OPTIONS"
    ensures var x := Handle(req, apiKey, outcome);
      && x.response.status == 204 && x.response.body == NoBody
      && x.response.headers == CorsHeaders && |x.response.headers| == 3
      && "Content-Type" !in x.response.headers
      && x.upstream == None
  {
    assert CorsHeaders.Keys == {"Access-Control-Allow-Origin", "Access-Control-Allow-Methods", "Access-Control-Allow-Headers"};
  }

  /** A GET /cards contacts the upstream exactly when `name` is present and
      not whitespace only; otherwise the reply is the 400 envelope. */
  lemma UpstreamContactedIffNameGiven(req: Request, apiKey: string, outcome: Outcome)
    requires req.verb == "GET" && req.path == CardsPath
    ensures var x := Handle(req, apiKey, outcome);
      && (x.upstream.Some? <==> "name" in req.query && !AllWhitespace(req.query["name"]))
      && (x.upstream.None? ==> x.response == JsonResponse(400, MissingNameMessage))
  {
    if "name" in req.query {
      TrimEmptyIffWhitespace(req.query["name"]);
    }
  }

  /** The upstream `q` is `name:` followed by the trimmed inbound name, which
      is non-empty and starts and ends with a non-whitespace character (where
      it sits in the inbound value is the contract of `Trim`). */
  lemma UpstreamQueryIsTrimmedName(req: Request, apiKey: string, outcome: Outcome)
    requires Handle(req, apiKey, outcome).upstream.Some?
    ensures "name" in req.query
    ensures var up, raw := Handle(req, apiKey, outcome).upstream.value, req.query["name"];
      && up.q == "name:" + Trim(raw)
      && Trim(raw) != ""
      && !IsWhitespace(Trim(raw)[0]) && !IsWhitespace(Trim(raw)[|Trim(raw)| - 1])
  {
  }

  /** Surrounding whitespace on `name` changes nothing the handler does. */
  lemma {:induction false} PaddedNameSameExchange(req: Request, pre: string, post: string, apiKey: string, outcome: Outcome)
    requires "name" in req.query
    requires AllWhitespace(pre) && AllWhitespace(post)
    ensures var padded := req.(query := req.query["name" := pre + req.query["name"] + post]);
      Handle(padded, apiKey, outcome) == Handle(req, apiKey, outcome)
  {
    var padded := req.(query := req.query["name" := pre + req.query["name"] + post]);
    assert RequestedName(padded) == RequestedName(req) by {
      PaddedValueTrimsAlike(pre, req.query["name"], post);
    }
    assert RequestedPageSize(padded) == RequestedPageSize(req);
    HandleSeesOnlyNameAndPageSize(padded, req, apiKey, outcome);
  }

  /** Of the query, the handler only looks at the trimmed name and the page size. */
  lemma {:induction false} HandleSeesOnlyNameAndPageSize(r1: Request, r2: Request, apiKey: string, outcome: Outcome)
    requires r1.verb == r2.verb && r1.path == r2.path
    requires RequestedName(r1) == RequestedName(r2)
    requires RequestedPageSize(r1) == RequestedPageSize(r2)
    ensures Handle(r1, apiKey, outcome) == Handle(r2, apiKey, outcome)
  {
    if r1.verb != "OPTIONS" && r1.verb == "GET" && r1.path == CardsPath && RequestedName(r1) != "" {
      var up := Upstream(RequestedName(r1), RequestedPageSize(r1), apiKey);
      assert Handle(r1, apiKey, outcome) == Exchange(Relay(outcome), Some(up));
      assert Handle(r2, apiKey, outcome) == Exchange(Relay(outcome), Some(up));
    }
  }

  /** `(v || '').trim()` ignores whitespace padding around a present value. */
  lemma {:induction false} PaddedValueTrimsAlike(pre: string, v: string, post: string)
    requires AllWhitespace(pre) && AllWhitespace(post)
    ensures Trim(OrElse(Some(pre + v + post), "")) == Trim(OrElse(Some(v), ""))
  {
    TrimIgnoresPadding(pre, v, post);
    if v == "" {
      TrimIgnoresPadding(pre, "", post);
      TrimEmptyIffWhitespace("");
    }
  }

  /** A non-empty inbound `pageSize` goes upstream verbatim, unchecked. */
  lemma PageSizePassedVerbatim(req: Request, apiKey: string, outcome: Outcome)
    requires Handle(req, apiKey, outcome).upstream.Some?
    requires "pageSize" in req.query && req.query["pageSize"] != ""
    ensures Handle(req, apiKey, outcome).upstream.value.pageSize == req.query["pageSize"]
  {
  }

  /** An absent or empty inbound `pageSize` becomes "24". */
  lemma PageSizeDefaults(req: Request, apiKey: string, outcome: Outcome)
    requires Handle(req, apiKey, outcome).upstream.Some?
    requires "pageSize" !in req.query || req.query["pageSize"] == ""
    ensures Handle(req, apiKey, outcome).upstream.value.pageSize == "24"
  {
  }

  /** The upstream request always asks for JSON and carries the API key
      exactly when one is configured, never as an empty value. */
  lemma ApiKeyHeaderIffConfigured(req: Request, apiKey: string, outcome: Outcome)
    requires Handle(req, apiKey, outcome).upstream.Some?
    ensures var h := Handle(req, apiKey, outcome).upstream.value.headers;
      && "Accept" in h && h["Accept"] == "application/json"
      && ("X-Api-Key" in h <==> apiKey != "")
      && ("X-Api-Key" in h ==> h["X-Api-Key"] == apiKey && h["X-Api-Key"] != "")
  {
  }

  /** A completed upstream call is relayed unchanged, whatever its status
      (4xx and 5xx included), with the JSON content type and CORS headers. */
  lemma UpstreamRelayedVerbatim(req: Request, apiKey: string, status: StatusCode, text: string)
    requires Handle(req, apiKey, Ok(status, text)).upstream.Some?
    ensures Handle(req, apiKey, Ok(status, text)).response == Response(status, JsonHeaders, Text(text))
  {
  }

  /** A failed fetch or body read becomes a 502 envelope carrying the
      failure, and nothing of the upstream is passed through. */
  lemma FetchFailureIsBadGateway(req: Request, apiKey: string, reason: string)
    requires Handle(req, apiKey, Failed(reason)).upstream.Some?
    ensures var r := Handle(req, apiKey, Failed(reason)).response;
      && r == JsonResponse(502, FetchFailedPrefix + reason)
      && !r.body.Text?
  {
  }

  /** Anything but OPTIONS or GET /cards is a 404 envelope. */
  lemma OtherRequestsNotFound(req: Request, apiKey: string, outcome: Outcome)
    requires req.verb != "OPTIONS"
    requires !(req.verb == "GET" && req.path == CardsPath)
    ensures Handle(req, apiKey, outcome) == Exchange(JsonResponse(404, NotFoundMessage), None)
  {
  }

  /** When nothing is sent upstream, what the upstream would have answered
      cannot influence the reply. */
  lemma NoUpstreamNoInfluence(req: Request, apiKey: string, o1: Outcome, o2: Outcome)
    requires Handle(req, apiKey, o1).upstream.None?
    ensures Handle(req, apiKey, o1) == Handle(req, apiKey, o2)
  {
  }

  // ---------------------------------------------------------------------
  // The handler as the step-by-step program it is

  /** The `res` object of Node's HTTP server: the head is written once, the
      body is ended once; a second `writeHead` or `end` is an error. */
  class ServerResponse {
    var statusCode: int
    var headers: Headers
    var body: Body
    var headersSent: bool
    var finished: bool

    constructor ()
      ensures statusCode == 200 && headers == map[] && body == NoBody
      ensures !headersSent && !finished
    {
      statusCode, headers, body := 200, map[], NoBody;
      headersSent, finished := false, false;
    }

    /** The response as the handler wrote it: the status and headers given to
        `writeHead` and the body given to `end`. */
    function Written(): Response
      reads this
    {
      Response(statusCode, headers, body)
    }

    /** `res.writeHead(status, headers)`: allowed once, before anything is sent. */
    method WriteHead(status: int, hs: Headers)
      requires !headersSent && 100 <= status <= 999
      modifies this
      ensures headersSent && statusCode == status && headers == hs
      ensures body == old(body) && finished == old(finished)
    {
      statusCode, headers, headersSent := status, hs, true;
    }

    /** `res.end(data)`: sends the body (and an implicit head if none was
      written) and closes the response. */
    method End(b: Body)
      requires !finished
      modifies this
      ensures finished && headersSent && body == b
      ensures statusCode == old(statusCode) && headers == old(headers)
    {
      body, headersSent, finished := b, true, true;
    }
  }

  /** `writeJson(res, status, {error: message})`. */
  method WriteJson(res: ServerResponse, status: int, message: string)
    requires !res.headersSent && !res.finished && 100 <= status <= 999
    modifies res
    ensures res.finished && res.headersSent
    ensures res.Written() == JsonResponse(status, message)
  {
    res.WriteHead(status, JsonHeaders);
    res.End(ErrorEnvelope(message));
  }

  /** Builds the upstream request as the source does: the headers object
      starts with `Accept` and gains `X-Api-Key` by a conditional update; the
      result is the headers of `UpstreamHeaders`. */
  method BuildUpstream(name: string, pageSize: string, apiKey: string) returns (up: UpstreamRequest)
    ensures up == Upstream(name, pageSize, apiKey)
  {
    var headers := map["Accept" := "application/json"];
    if apiKey != "" {
      headers := headers["X-Api-Key" := apiKey];
    }
    up := UpstreamRequest(UpstreamUrl, "name:" + name, pageSize, headers);
  }

  /** The request callback: every path through it writes exactly one head and
      one body (a second write would break WriteHead's or End's precondition),
      and together with the upstream request it issues this is `Handle`. */
  method HandleRequest(req: Request, apiKey: string, outcome: Outcome, res: ServerResponse)
    returns (sent: Option<UpstreamRequest>)
    requires !res.headersSent && !res.finished
    modifies res
    ensures res.finished && res.headersSent
    ensures Exchange(res.Written(), sent) == Handle(req, apiKey, outcome)
  {
    if req.verb == "OPTIONS" {
      res.WriteHead(204, CorsHeaders);
      res.End(NoBody);
      return None;
    }

    if req.verb == "GET" && req.path == CardsPath {
      var name := RequestedName(req);
      var pageSize := RequestedPageSize(req);

      if name == "" {
        WriteJson(res, 400, MissingNameMessage);
        return None;
      }

      var up := BuildUpstream(name, pageSize, apiKey);
      match outcome {
        case Ok(status, text) =>
          res.WriteHead(status, JsonHeaders);
          res.End(Text(text));
        case Failed(reason) =>
          WriteJson(res, 502, FetchFailedPrefix + reason);
      }
      return Some(up);
    }

    WriteJson(res, 404, NotFoundMessage);
    return None;
  }
}
