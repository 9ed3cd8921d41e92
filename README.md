# mcp-pdpj in Dafny

A model of the two pieces of logic in the mcp-pdpj proxy. The proxy forwards REST requests to the
PDPJ judicial-process lookup service.

- **The upstream client** (`tools/pdpj.js`, module `Pdpj` in `pdpj.dfy`) holds a single bearer
  token and its expiry instant in module state. `auth()` logs in again only when the token is
  falsy or the clock has passed the expiry. `login()` is an OAuth 2.0 resource-owner password
  grant (section 4.3 of RFC 6749) and stores `now + expires_in*1000 - 60000`. The token cache is
  the class `TokenCache` with fields `token` and `expires`. Its methods take the clock and the
  token endpoint's reply as inputs and are proved against the pure functions `Relogin` and
  `Authorize`. The process lookup (`consultarProcesso.run`) and the documents projection
  (`listarDocumentos.run`) are methods over that cache. They are specified by the functions
  `Consult` and `ListDocs`, built from `ProcessUrl`, `ReadReply` and `Documentos`.
  `Series` replays sequential `auth()` calls, so the caching rule can be stated across calls.
- **The request handler** (`index.js`, module `Handler` in `handler.dfy`) is a pure decision
  table. `Decide` covers everything up to the awaited operation: CORS headers, the `OPTIONS`
  short-circuit, `/`, `/api`, `/health`, the two operation prefixes, the module-load failure,
  the number taken by `split('/').pop()`, the 400 and the 404. `Handle` completes it with the
  operation's outcome, given as a function `run`. `Serve` runs one request against a live
  `TokenCache` and is proved equal to `Handle` with the operations of `Pdpj`.
- `strings.dfy` models the JavaScript built-ins the code relies on: `split` with a one-character
  separator, `pop`, and the decimal text of a status code. `json.dfy` holds JSON values and
  `undefined`. `wrappers.dfy` holds `Option` and `Result`.

Behaviours of the code that the model keeps as they are:

- A failed login does not keep the previous token. A parsed reply without `access_token`
  overwrites it with `undefined`, and an error body from the identity provider is such a reply.
  So is a JSON array, string, number or boolean, which has neither field. Only three cases make
  `login()` throw and leave the cache as it was: a failed request, a body that is not JSON, and
  a JSON `null` body.
- `listarDocumentos` returns `dados.documentos` as it is. That is `undefined` when the field is
  absent, never an empty list, and a throw when the body is `null`.
- Importing the client module happens before the number is checked (index.js:47). So when the
  import fails, `/api/processo/` gets 500, not 400.
- A token reply without `expires_in` stores `NaN` as the expiry. `now > NaN` is false, so that
  token is reused for as long as it is truthy.
- `login()` reads the clock after the token reply arrives (tools/pdpj.js:18). This is a second
  reading, later than the one `auth()` compares with (tools/pdpj.js:22). The model keeps both
  readings: `now` and `LoginExchange.clock`.

## Model

| member | source | states |
|---|---|---|
| `Pdpj.Bearer` | tools/pdpj.js:23 | the header value is `Bearer ` followed by the token itself, or by `undefined` when there is no token |
| `Pdpj.Relogin` | tools/pdpj.js:15-18 | a rejected login throws; otherwise the token is the reply's `access_token` and the expiry is one minute before `clock + expires_in*1000`, or NaN without `expires_in` |
| `Pdpj.Authorize` | tools/pdpj.js:21-24 | `login()` runs exactly when the token is falsy or `now > expires`; without it the cache is unchanged and the header carries the cached token; a login that gets a reply leaves exactly the token and expiry `Relogin` computes; a throwing login leaves the cache as it was |
| `Pdpj.TokenCache.constructor` | tools/pdpj.js:4 | the cache starts with no token and expiry 0 |
| `Pdpj.TokenCache.Login` | tools/pdpj.js:6-19 | overwrites both fields as `Relogin` says, or fails and changes nothing |
| `Pdpj.TokenCache.Auth` | tools/pdpj.js:21-24 | the new fields, the header and whether a login ran are exactly `Authorize` of the old fields |
| `Pdpj.ProcessUrl` | tools/pdpj.js:33 | the URL is the fixed process base followed by the number, unchanged |
| `Pdpj.StatusMessageNamesStatus` | tools/pdpj.js:35 | the message `Status N` reads back as exactly the status N |
| `Pdpj.ReadReply` | tools/pdpj.js:34-36 | success exactly for a 2xx reply with a JSON body, and then the body unchanged; a non-ok status throws an error whose message is exactly `Status ` followed by the status's decimal text, which reads back as that status |
| `Pdpj.Documentos` | tools/pdpj.js:46 | the result is the `documentos` field itself when present; no value is invented; only a null body throws |
| `Pdpj.Consult` | tools/pdpj.js:32-37 | one `auth()`, whose cache change it keeps, then one GET of the process URL with the resulting bearer header, mapped by `ReadReply` |
| `Pdpj.ListDocs` | tools/pdpj.js:44-47 | the lookup's cache change and errors pass through; a successful lookup is projected by `Documentos` |
| `Pdpj.ConsultarProcesso` | tools/pdpj.js:32-37 | the returned outcome and the new cache are those of `Consult` from the old cache |
| `Pdpj.ListarDocumentos` | tools/pdpj.js:44-47 | the returned outcome and the new cache are those of `ListDocs` from the old cache |
| `Pdpj.Series` | tools/pdpj.js:21-24 | the fold of `Authorize` over sequential `auth()` calls: the final cache and the number of calls that logged in, which is at most the number of calls |
| `Pdpj.FirstAuthLogsIn` | tools/pdpj.js:4 | from the initial state the first `auth()` always logs in |
| `Pdpj.ReusedAtExpiryInstant` | tools/pdpj.js:22 | the comparison is strict: at `now == expires` the cached token is reused and nothing changes |
| `Pdpj.RefreshAfterExpiry` | tools/pdpj.js:22 | a call after the expiry instant logs in |
| `Pdpj.NoLoginWhileValid` | tools/pdpj.js:22 | any series of calls while the token is usable logs in zero times and leaves the cache unchanged |
| `Pdpj.OneLoginPerWindow` | tools/pdpj.js:17-22 | a call that logs in and gets a truthy token, followed by calls inside that token's window, logs in exactly once and leaves the new token cached |
| `Pdpj.TwoCallsSameInstant` | tools/pdpj.js:18-22 | two calls at the same instant log in at most once when `expires_in >= 60` and the clock does not run backwards during login |
| `Pdpj.ShortLifetimeLogsInTwice` | tools/pdpj.js:18-22 | with a 59-second lifetime, two calls at the same instant log in twice, so the bound above is needed |
| `Pdpj.MissingLifetimeNeverExpires` | tools/pdpj.js:18-22 | with a NaN expiry a truthy token is never refreshed |
| `Pdpj.MissingAccessTokenOverwrites` | tools/pdpj.js:17 | a reply without `access_token` clears the token, the header reads `Bearer undefined`, and the next call logs in again |
| `Pdpj.NonOkStatusThrows` | tools/pdpj.js:35 | a non-ok upstream status makes the lookup throw `Status N` with that status |
| `Strings.Decimal` | tools/pdpj.js:35 | the decimal text of the status is non-empty, all digits, with no leading zero |
| `Strings.DecimalRoundTrip` | tools/pdpj.js:35 | reading back the decimal text gives the number |
| `Strings.Split` | index.js:50 | `split('/')` yields at least one piece and no piece holds the separator |
| `Strings.SplitJoin` | index.js:50 | joining the pieces with the separator gives back the pathname |
| `Strings.LastPieceIsTail` | index.js:50 | `split('/').pop()` is the text after the last separator: separator-free, a suffix, preceded by the separator |
| `Handler.Decide` | index.js:16-83 | an operation runs exactly for a non-OPTIONS request on an operation prefix with the module loaded and a non-empty number; it gets that number, and the `/api/processo/` prefix picks the lookup; every early answer carries the CORS headers |
| `Handler.Handle` | index.js:8-84 | every response carries the three CORS headers; the status is 200, 400, 404 or 500; OPTIONS gives 200 with no body; 400 exactly for an empty number after a successful load; 404 exactly for a path outside all routes |
| `Handler.Serve` | index.js:45-71 | one request against the live cache gives `Handle` with the cache-backed operations, and the cache changes only when an operation runs |
| `Handler.PreflightShortCircuits` | index.js:16-19 | OPTIONS on any path is answered 200 with no body and nothing is routed |
| `Handler.FixedRoutesIgnoreMethod` | index.js:24-42 | `/`, `/api` and `/health` give their 200 bodies for every non-OPTIONS method |
| `Handler.AnswerRunsNothing` | index.js:16-54 | when the handler answers before the operation stage, the operations do not affect the response |
| `Handler.NumeroIsLastSegment` | index.js:50 | the number is the separator-free text after the last `/` of the pathname |
| `Handler.TrailingSlashIsBadRequest` | index.js:51-54 | a trailing slash gives 400 with the fixed message once the module loaded |
| `Handler.LoadFailureBeforeValidation` | index.js:45-79 | a failed module import gives the fixed 500 even when the number is empty |
| `Handler.SuccessPassesThrough` | index.js:49-71 | the prefix picks the operation, and its successful result is sent with 200, unchanged |
| `Handler.FailureIsOpaque` | index.js:72-78 | any operation failure gives the same fixed 500 body |
| `Handler.NestedPathExample` | index.js:50 | `/api/processo/a/b` runs the lookup for `b` |
| `Handler.UnroutedPaths` | index.js:83 | `/api/` and `/sse` give 404 |
| `Handler.UpstreamStatusHidden` | index.js:72-78 | a non-ok upstream status reaches the client as the fixed 500, not as its own status |

## Left out

- Network I/O: the token POST, the upstream GET and their JSON parsing. Their results are inputs (`LoginReply`, `Reply` with an optional parsed body). A failed fetch and an unreadable body of the token request are one case, `LoginRejected`.
- The credentials form of the token request (`grant_type`, `client_id`, `username`, `password` from the environment). Only the caching rule of the password grant is modelled.
- `Date.now()` and `new Date().toISOString()`. The clock is an integer input and the timestamp an opaque string.
- `new URL(...)`: the pathname is the input. The handler's outer `catch` (index.js:85-92) can only be reached from URL parsing or from writing the response, so it is not modelled.
- The dynamic imports: the one at index.js:2-6 has no effect on responses; the one at index.js:47 is the input `loaded`.
- The `Tool` wrapper from `../dist/FastMCP.js`, which is not part of this model; the two tools are modelled by their `run` bodies.
- Concurrency: two requests racing to refresh the token. Calls are sequential.
- The SSE transport: no server-side SSE handler exists in the handler; `/sse` is a 404.
- `test-api.js` and `test-sse.js`: client scripts with console output, not part of the system's logic.
- The `access_token` field of the token reply is taken to be a string or absent. A JSON `null` or non-string `access_token` is not modelled. The code would store `null`, send `Bearer null` and log in again on the next call; any other value is sent as its text.
- JSON numbers are integers; `expires_in` is an integer number of seconds or absent. A fractional or string `expires_in`, and the key order of JSON objects, are not modelled.
- Logging through `console.error`.
