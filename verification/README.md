# Pokémon TCG card-search proxy: a Dafny model of the request handler

The proxy is one Node.js HTTP request callback. It does the following, in order:

- It answers CORS pre-flight (`OPTIONS`) requests.
- It accepts `GET /cards?name=…&pageSize=…`.
- It rejects a missing or blank `name` with a 400 envelope.
- It builds the upstream request to `https://api.pokemontcg.io/v2/cards`. The query holds `q=name:<trimmed name>` and `pageSize`, which defaults to `"24"`. The headers hold `Accept: application/json` and, when a key is configured, `X-Api-Key`.
- It relays the upstream status and the body text `.text()` produced, unchanged. A failed fetch or body read becomes a 502 envelope.
- Anything else that parses gets a 404 envelope.

Every response that is not a pre-flight reply carries the JSON content type. Every response carries the three CORS headers of the WHATWG Fetch Standard (section 3.2).

The model has two modules.

- `JsString` (`js_string.dfy`) models ECMAScript's `String.prototype.trim`. The whitespace set is written out: WhiteSpace and LineTerminator of ECMAScript sections 12.2 and 12.3. `TrimStart`, `TrimEnd` and `Trim` are recursive functions. Their contracts say that the result is the infix between the leading and trailing whitespace, and that it neither starts nor ends with whitespace. Lemmas then show four things:
  - this description determines `Trim` uniquely;
  - `Trim` is idempotent;
  - padding with whitespace changes nothing;
  - `Trim(s)` is empty exactly when `s` is whitespace only.
- `PokemonProxy` (`pokemon_proxy.dfy`) has two layers.
  - The pure layer is the function `Handle(req, apiKey, outcome)`. It returns the response and the upstream request issued, if any. The lemmas beside it state the handler's decision table.
  - The step-by-step layer follows the source. A `ServerResponse` class stands for Node's `res`: `writeHead` may be called once and `end` may be called once, as preconditions. `WriteJson` is the `writeJson` helper. `BuildUpstream` builds the headers object with a conditional update, as line 45 does. It is proved equal to `Upstream(name, pageSize, apiKey)`, whose headers are `UpstreamHeaders(apiKey)`. `HandleRequest` is the callback. It is proved to write exactly one head and one body, and to agree with `Handle`.

The network call is a parameter: `Outcome = Ok(status, body) | Failed(reason)`. It stands for what awaiting `fetch(...)` and then `.text()` produced. The configured API key is a parameter too. The empty string means "not configured", as `process.env.POKEMON_TCG_API_KEY || ''` makes it.

Two behaviours of the code are easy to miss. The model follows the code in both.

- `pageSize` falls back to `"24"` when it is absent, and also when it is the empty string. The reason is that `||` treats `''` as false.
- The `GET /cards` reply carries whatever status the upstream returned, 4xx and 5xx included. It is not always 200.

## Model

| member | source | states |
|---|---|---|
| `JsString.LatinOneWhitespace` | proxy/pokemon_proxy.js:31 | of the characters `trim()` removes (`IsWhitespace`: ECMAScript WhiteSpace and LineTerminator), those within Latin-1 are exactly TAB, LF, VT, FF, CR, space and NO-BREAK SPACE |
| `JsString.TrimStart` | proxy/pokemon_proxy.js:31 | result is the suffix of the input after its whitespace-only prefix and does not start with whitespace |
| `JsString.TrimEnd` | proxy/pokemon_proxy.js:31 | result is the prefix of the input before its whitespace-only suffix and does not end with whitespace |
| `JsString.Trim` | proxy/pokemon_proxy.js:31 | `trim()` returns the infix of the input between whitespace-only ends; a non-empty result starts and ends with non-whitespace |
| `JsString.TrimEmptyIffWhitespace` | proxy/pokemon_proxy.js:31 | a value trims to `''` exactly when it consists only of whitespace |
| `JsString.TrimCharacterised` | proxy/pokemon_proxy.js:31 | any whitespace / core / whitespace split of a string, with a core that neither starts nor ends with whitespace, has `Trim` equal to that core |
| `JsString.TrimIdempotent` | proxy/pokemon_proxy.js:31 | trimming a trimmed value changes nothing |
| `JsString.TrimIgnoresPadding` | proxy/pokemon_proxy.js:31 | adding whitespace on either side of a value does not change its trimmed form |
| `PokemonProxy.OrElse` | proxy/pokemon_proxy.js:31-32 | JavaScript `v \|\| fallback` on a string or null: a present non-empty value wins, null and `''` give the fallback, so a non-empty fallback never yields `''` |
| `PokemonProxy.RequestedName` | proxy/pokemon_proxy.js:31 | `(get('name') \|\| '').trim()` is the trimmed value when `name` is present (the `''` fallback changes nothing) and `''` when absent; a non-empty result has no whitespace at either end |
| `PokemonProxy.RequestedPageSize` | proxy/pokemon_proxy.js:32 | `get('pageSize') \|\| '24'` is never empty, is the inbound value whenever that is non-empty, and is otherwise `"24"` |
| `PokemonProxy.JsonResponse` | proxy/pokemon_proxy.js:7-15 | what `writeJson` writes: the given status, the `{error}` envelope, and exactly the three CORS headers plus the JSON `Content-Type` |
| `PokemonProxy.Relay` | proxy/pokemon_proxy.js:47-58 | after the upstream call the reply always has the JSON headers; its body is passthrough text iff the call completed, with the upstream status; a failure gives the 502 envelope with the prefixed reason |
| `PokemonProxy.Upstream` | proxy/pokemon_proxy.js:39-45 | upstream request targets the cards endpoint with `q = "name:" + name` and the given page size; its headers are those of `UpstreamHeaders(apiKey)` |
| `PokemonProxy.UpstreamHeaders` | proxy/pokemon_proxy.js:44-45 | the headers object passed to fetch always has `Accept: application/json`, has `X-Api-Key` iff the key is non-empty (then holding the key), and has no other key |
| `PokemonProxy.Handle` | proxy/pokemon_proxy.js:17-64 | an upstream request is issued only for `GET /cards`; without one the status is 204, 400 or 404; with one the reply is the relay of the upstream outcome |
| `PokemonProxy.PreflightOnAnyPath` | proxy/pokemon_proxy.js:18-26 | `OPTIONS` on any path gives 204, no body, exactly the three CORS headers, no Content-Type, and no upstream request |
| `PokemonProxy.UpstreamContactedIffNameGiven` | proxy/pokemon_proxy.js:30-37 | for `GET /cards` the upstream is contacted iff `name` is present and not whitespace only; otherwise the reply is 400 `{error: "Missing query parameter: name"}` |
| `PokemonProxy.UpstreamQueryIsTrimmedName` | proxy/pokemon_proxy.js:31-40 | when the upstream is contacted, `q` is `"name:"` followed by the trimmed inbound name, which is non-empty and has no whitespace at either end |
| `PokemonProxy.PaddedNameSameExchange` | proxy/pokemon_proxy.js:31-40 | padding the inbound `name` with whitespace leaves the whole exchange (reply and upstream request) unchanged |
| `PokemonProxy.PageSizePassedVerbatim` | proxy/pokemon_proxy.js:32-41 | a non-empty inbound `pageSize` reaches the upstream unchanged, with no numeric check |
| `PokemonProxy.PageSizeDefaults` | proxy/pokemon_proxy.js:32-41 | an absent or empty inbound `pageSize` becomes `"24"` upstream |
| `PokemonProxy.ApiKeyHeaderIffConfigured` | proxy/pokemon_proxy.js:44-45 | the headers object the handler passes to `fetch` for every upstream request has `Accept: application/json`, has `X-Api-Key` iff a key is configured, and then holds that key, never an empty value |
| `PokemonProxy.UpstreamRelayedVerbatim` | proxy/pokemon_proxy.js:47-56 | a completed upstream call is relayed with its own status (any status), with the JSON and CORS headers, and the handler passes its body text unchanged to `res.end` |
| `PokemonProxy.FetchFailureIsBadGateway` | proxy/pokemon_proxy.js:43-58 | a failed fetch or body read gives 502 `{error: "Proxy fetch failed: " + reason}` and no passthrough body |
| `PokemonProxy.OtherRequestsNotFound` | proxy/pokemon_proxy.js:63 | for any parsed request other than `OPTIONS` or `GET /cards` the handler writes 404 with `{error: "Not found"}` and issues no upstream request |
| `PokemonProxy.NoUpstreamNoInfluence` | proxy/pokemon_proxy.js:18-37 | when no upstream request is issued, the reply does not depend on what the upstream would answer |
| `PokemonProxy.ServerResponse.WriteHead` | proxy/pokemon_proxy.js:19-23 | `res.writeHead` sets status and headers once, before the head is sent, and leaves the body untouched |
| `PokemonProxy.ServerResponse.End` | proxy/pokemon_proxy.js:24 | `res.end` sets the body and finishes the response, once, leaving status and headers as written |
| `PokemonProxy.WriteJson` | proxy/pokemon_proxy.js:7-15 | writes exactly one response and sends the head: the given status, the JSON content type, the CORS headers and the `{error}` envelope |
| `PokemonProxy.BuildUpstream` | proxy/pokemon_proxy.js:39-45 | building the headers object by a conditional update yields `Upstream(name, pageSize, apiKey)`, whose headers are `UpstreamHeaders(apiKey)` |
| `PokemonProxy.HandleRequest` | proxy/pokemon_proxy.js:17-64 | every path writes exactly one head and one body, so the head is sent and the response finished; the response written and the upstream request issued are those of `Handle` |

## Left out

- Server lifecycle and logging (`http.createServer` wiring, `server.listen`, `console.log`, proxy/pokemon_proxy.js:17 and 66-68) are I/O plumbing.
- Reading `PORT` and `POKEMON_TCG_API_KEY` from the environment (proxy/pokemon_proxy.js:4-5) is not modelled. The key is a parameter, and `''` means "not configured".
- The network call (`fetch`, `apiResponse.text()`) is a foreign call. Its combined result is the `Outcome` parameter. Timeouts and the kinds of transport failure are not distinguished.
- WHATWG URL parsing and serialisation (`new URL`, `searchParams.get`/`set`, percent-encoding) are a library. The inbound request is already parsed into a path and a map from each query key to its first decoded value. The upstream request is a record with its two search parameters.
- `new URL` at proxy/pokemon_proxy.js:28 throws whenever `req.url` together with the `Host` header does not parse. Two examples are a malformed `Host` and a request-target such as `//`, which has an empty authority. The call sits outside the `try`, so the callback's promise rejects unhandled and nothing is written; under Node's default handling of unhandled rejections the process then exits. `Request` stands for a request that parsed. The exception is `OPTIONS`: it is answered at lines 18-26, before `new URL` runs, so an `OPTIONS` request whose URL would not parse still gets the 204. `PreflightOnAnyPath` covers that case, since it holds for any path.
- `apiResponse.text()` at proxy/pokemon_proxy.js:48 decodes the body as UTF-8: a leading BOM is dropped and invalid byte sequences are replaced with U+FFFD. The model relays that decoded text, not the upstream's bytes.
- `JSON.stringify` escaping and the formatting of `String(error)` are library behaviour. An envelope is modelled as its message string, and a failure as its already-stringified reason.
- Header order inside a header object is not modelled (headers are a `map`). The headers `fetch` adds on its own are not modelled either: the model describes the headers object the handler passes to it.
- `fetch` normalises that headers object before sending it (the append step of the WHATWG Fetch Standard's `Headers` class): it strips leading and trailing HTTP whitespace (tab, space, CR, LF) from each value and throws a `TypeError` for a value it cannot send (CR, LF or NUL inside it, or a character above U+00FF). So a key made only of spaces or tabs passes `if (API_KEY)` at line 45 and goes out as an empty `X-Api-Key`, a key with surrounding whitespace goes out without it, and a key `fetch` rejects becomes a `Failed` outcome (502). `ApiKeyHeaderIffConfigured` and `UpstreamHeaders` speak of the object passed to `fetch`, not of the request on the wire.
- Node's `res` sends no body for HEAD requests or after a 1xx, 204 or 304 status: there `res.end(data)` drops `data`. So `HEAD /cards?…` gets a 404 with no body, and an upstream 204 or 304 is relayed without its text. The model records the body the handler passes to `res.end`, not what reaches the client.
- `Outcome` statuses are three-digit codes (100-999), the range `fetch` reports. As a consequence, `writeHead` at line 50 never throws. A `writeHead`/`end` that throws for other reasons inside the `try` (which would send the handler into the `catch` with the head already written) is not modelled.
- Async suspension and concurrency across requests are not modelled. Requests share no mutable state.
