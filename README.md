# Request-coalescing cache of matrix-guest-proxy, in Dafny

matrix-guest-proxy is a caching reverse proxy in front of a Matrix homeserver.
Its core is the `requests` Map inside `main` (index.js). A request is admitted
only for GET or OPTIONS and only if its path matches one of six endpoints. The
proxy then keys it by the upstream URL with the proxy's `access_token` set. A
request that finds an entry attaches to the promise stored there. A request
that misses issues one upstream fetch and stores the promise before it settles.
When the fetch settles, the endpoint's `isCached` decides what happens next:
the entry is deleted at once, or kept until a TTL timer deletes it.

This project models that core and proves:

- coalescing: at most one fetch per key while its entry exists;
- that every waiter shares the same settled value;
- that a timer only ever removes the entry whose settlement armed it;
- the cache-validity policy of each endpoint;
- the error bodies and the transport-failure response.

Modules, one per component:

- `Wrappers`: `Option`.
- `Json`: parsed JSON values. Also destructuring as the predicates perform it
  (the last duplicate member wins), and JSON.stringify's string quoting with a
  reference decoder that reads it back.
- `Errors`: `matrixError` and a decoder for its output, proved to recover both fields.
- `Upstream`: the response value and `makeRequest`. The body is accumulated chunk
  by chunk in a loop. A transport error becomes a 500 with `{}` headers and the
  `ERR_UNKNOWN` body.
- `Query`: `URLSearchParams.set` and `Object.fromEntries` over the parameter list.
- `Endpoints`: the endpoint table, first-match lookup, and `isCached` with
  JavaScript `!==` semantics for the `/sync` and `/events` cursor predicates.
- `Cache`: the handler as a pure state machine. Its state is the Map, the
  pending fetches with their captured continuation context, the settled
  promises, the armed timers, and the log of fetches. It has three events:
  arrival, settlement and expiry. The module also holds the invariant it keeps
  and lemmas over single steps and over whole runs.
- `Proxy`: the same handler as a class, `RequestCache`, that mutates these
  fields in place. It has one method per event. Each method is proved to
  perform exactly the corresponding `Cache` step.

Each Node handler runs to completion, so each event is atomic. Fetch n creates
promise n, so the fetch counter doubles as the generation of the entry that
fetch inserted. A request waiting on a promise receives that promise's value
once it settles; `Delivered` states this.

Three collaborators are parameters of `Cache.Config`:

- the path matcher (path-to-regexp's `match`);
- JSON.parse;
- the access token.

The transport-failure lemmas require that JSON.parse reads the error body back as
the two-member object. `Errors.DecodeMatrixErrorRoundTrip` shows that the body
encodes exactly that object.

Behaviour worth knowing, as the code has it:

- A transport failure is not automatically excluded from caching. Its body is
  valid JSON. It is retained on the four endpoints without a predicate, and on
  `/sync` and `/events` whenever the request carried `since` or `from`
  (`Cache.TransportFailureRetention`).
- A response whose body is JSON `null`, on `/sync` or `/events`, makes the
  predicate's destructuring throw inside the continuation. The entry is then
  never deleted and no timer is armed (`Cache.StuckIsPermanent`).

## Model

| member | source | states |
|---|---|---|
| `Json.LastMember` | index.js:68 | the member found is the last one with that name; none is found iff no member has it |
| `Json.Property` | index.js:68 | destructuring a field yields a value iff the value is an object with a member of that name, and then the value of its last such member |
| `Json.EscapePlain` | index.js:36 | JSON.stringify writes a string without quotes, backslashes or control characters unchanged |
| `Json.UnescapeEscape` | index.js:36 | decoding the escaped text recovers the string and stops exactly at the closing quote |
| `Json.ParseQuotedQuote` | index.js:36 | a quoted JSON string is read back exactly, leaving the text after it |
| `Errors.DecodeMatrixErrorRoundTrip` | index.js:35-37 | the error body decodes back to exactly its errcode and error, whatever their characters |
| `Errors.MatrixErrorInjective` | index.js:35-37 | distinct (errcode, error) pairs give distinct bodies |
| `Errors.MatrixErrorPlain` | index.js:35-37 | for plain fields the body is `{"errcode":"<errcode>","error":"<error>"}` |
| `Errors.InvalidMethodBodyText` | index.js:95 | the 405 body is `{"errcode":"M_UNKNOWN","error":"Invalid method"}` |
| `Errors.UnknownRequestBodyText` | index.js:102 | the 404 body is `{"errcode":"M_NOT_FOUND","error":"Unknown proxy request"}` |
| `Errors.ProxyFailureBodyText` | index.js:55 | the transport-failure body is `{"errcode":"ERR_UNKNOWN","error":"Error proxying request"}` |
| `Upstream.ConcatAppend` | index.js:47-49 | accumulating chunks is associative over splits of the chunk sequence |
| `Upstream.TransportFailureSettles` | index.js:53-57 | a transport failure settles to a 500 with no headers and a body that decodes to ERR_UNKNOWN / "Error proxying request" |
| `Upstream.MakeRequest` | index.js:39-59 | a response keeps its status and headers and has the chunks concatenated as body; a transport error gives 500, `{}` and the ERR_UNKNOWN body |
| `Query.SetParamReplaces` | index.js:106 | after setting, exactly one `access_token` pair remains, carrying the proxy's token, and every other parameter is kept in order |
| `Query.SetParamPosition` | index.js:106-107 | the token pair takes the place of the client's first `access_token` pair, later ones dropped, or is appended when there is none; this is the order the serialised key lists |
| `Query.SetParamIgnoresClientValue` | index.js:106 | whatever token values the client sent, the resulting parameter list is the same |
| `Query.SetParamIdempotent` | index.js:106 | setting the token twice equals setting it once |
| `Query.FromEntriesValues` | index.js:121 | a name is in Object.fromEntries iff some pair has it, and maps to the last such value |
| `Query.FromEntriesSetParam` | index.js:121 | the query map the predicate sees is the client's map with `access_token` overridden |
| `Endpoints.FindEndpoint` | index.js:99 | the result is the first table index whose pattern matches; none is returned iff no pattern matches |
| `Endpoints.IsCached` | index.js:11-20 | only a parsed body can be cacheable; only a cursor predicate given JSON null throws |
| `Endpoints.TableShape` | index.js:61-74 | six endpoints; the first four have no predicate; /sync compares since/next_batch, /events from/end |
| `Endpoints.MalformedNeverCached` | index.js:13-17 | a body JSON.parse rejects is never cacheable, on any endpoint |
| `Endpoints.NoPredicateCachesJson` | index.js:19 | an endpoint without a predicate caches a body iff it parses |
| `Endpoints.SyncCachedIff` | index.js:66-69 | /sync retains a non-null body iff `since !== next_batch`, and never throws on it |
| `Endpoints.EventsCachedIff` | index.js:70-73 | /events retains a non-null body iff `from !== end`, and never throws on it |
| `Endpoints.SyncSameCursorNotCached` | index.js:68 | a long poll returning the same cursor it was given is not retained |
| `Endpoints.SyncNewCursorCached` | index.js:68 | a long poll returning a different cursor is retained |
| `Endpoints.NullBodyThrows` | index.js:66-73 | /sync and /events throw on a JSON null body |
| `Endpoints.ProxyFailureVerdict` | index.js:11-20 | the parsed error object is cacheable on predicate-less endpoints, and on /sync (/events) iff the query has since (from) |
| `Cache.InitValid` | index.js:88 | the empty Map satisfies the invariant |
| `Cache.AdmitPreservesValid` | index.js:109-113 | attaching or inserting a pending entry keeps the invariant |
| `Cache.ArrivePreservesValid` | index.js:90-113 | handling a request keeps the invariant |
| `Cache.ResolvePreservesValid` | index.js:116-133 | resolving a pending promise and deleting its key or arming its timer keeps the invariant |
| `Cache.SettleIsResolve` | index.js:116-133 | a settlement resolves the promise, deletes the key iff not cacheable, and arms a timer iff cacheable |
| `Cache.SettlePreservesValid` | index.js:116-133 | a settlement keeps the invariant |
| `Cache.ExpirePreservesValid` | index.js:130-132 | a timer firing keeps the invariant |
| `Cache.StepPreservesValid` | index.js:90-144 | every event keeps the invariant |
| `Cache.RunPreservesValid` | index.js:88-144 | every state reachable from any valid state satisfies the invariant |
| `Cache.RejectsOtherMethods` | index.js:93-97 | a method other than GET/OPTIONS gets 405 with the M_UNKNOWN body (`Errors.InvalidMethodBodyText`), for any path; state unchanged, no fetch |
| `Cache.RejectsUnknownPaths` | index.js:99-104 | GET/OPTIONS on an unmatched path gets 404 with the M_NOT_FOUND body (`Errors.UnknownRequestBodyText`); state unchanged, no fetch |
| `Cache.MethodNotInKey` | index.js:106-109 | GET and OPTIONS for the same URL have the same effect and share one entry |
| `Cache.RoutesToFirstMatch` | index.js:99-107 | a routed request uses the first matching endpoint, keeps its pathname, holds exactly the proxy's token and keeps every other parameter |
| `Cache.ArriveHit` | index.js:109-110 | a request whose key has an entry attaches to that promise; no fetch, no change |
| `Cache.ArriveMiss` | index.js:109-113 | a miss issues exactly one fetch, for that key, and inserts its pending promise at once |
| `Cache.SettleEffect` | index.js:116-133 | settling resolves the promise once; the key is deleted (not cacheable), kept with a timer (cacheable) or kept untimed (threw); no other key changes |
| `Cache.AdmitTransition` | index.js:109-113 | a hit changes nothing; a miss appends one fetch for a key that had no entry, and touches no settled promise or timer |
| `Cache.ResolveTransition` | index.js:116-133 | resolving fetch n sets only promise n and changes at most the entry of n's own key, which held n |
| `Cache.ExpireTransition` | index.js:130-132 | a firing timer deletes only the entry it owns and only its own timer; an unarmed one changes nothing |
| `Cache.ExpireRemovesOwnEntry` | index.js:130-132 | a firing timer removes exactly the entry whose settlement armed it, and a second firing does nothing |
| `Cache.NoNewerFetchWhileCached` | index.js:129-132 | while a retained entry's timer is armed, no later fetch for that key exists |
| `Cache.OnePendingFetchPerKey` | index.js:109-113 | a key never has two pending fetches |
| `Cache.StepKeepsHistory` | index.js:137-143 | a settled promise's value never changes afterwards, and the fetch log only grows, by at most one per event |
| `Cache.StepKeepsEntry` | index.js:109-113 | a key that keeps its entry across an event keeps the same promise, and no fetch for it is issued |
| `Cache.CoalescedWhileKept` | index.js:109-113 | over any run in which a key keeps its entry, it keeps the same promise and no fetch for it is issued |
| `Cache.SettleThrewSticks` | index.js:119-127 | if the predicate throws, the entry stays with its settled promise and no timer |
| `Cache.StepKeepsStuck` | index.js:116-133 | an entry that is settled and untimed stays so across any event |
| `Cache.StuckIsPermanent` | index.js:116-133 | such an entry is never removed by any later run |
| `Cache.BurstSharesOneFetch` | index.js:109-113 | two requests for one URL before settlement cause one fetch and await the same promise |
| `Cache.DiscardedResponseRefetches` | index.js:119-127 | after a non-cacheable settlement, waiters have the value and the next request for that URL issues a new fetch |
| `Cache.RetainedUntilExpiry` | index.js:129-132 | after a cacheable settlement, the next request is served from the entry with no fetch; once the timer fires, the entry is gone, a second firing does nothing, and the next request issues exactly one new fetch |
| `Cache.StepKeepsTimer` | index.js:129-132 | every event other than its own expiry keeps an armed timer, its key, and the entry that key holds |
| `Cache.CachedUntilExpiry` | index.js:129-132 | over any run without `Expiry(n)`, a retained entry keeps its promise and armed timer, no fetch for its key is issued, and the firing then removes exactly that entry |
| `Cache.ProxyFailureFetchVerdict` | index.js:53-57 | the transport-failure response is judged cacheable iff the endpoint has no predicate or the client sent since/from |
| `Cache.TransportFailureRetention` | index.js:53-57 | after a miss whose fetch fails in transport, the entry survives settlement iff the endpoint has no predicate or the client sent since/from |
| `Proxy.RequestCache.constructor` | index.js:88 | a new handler starts from the empty Map and satisfies the invariant |
| `Proxy.RequestCache.Arrive` | index.js:90-113 | the handler method performs exactly the arrival step and keeps the invariant |
| `Proxy.RequestCache.Admit` | index.js:109-113 | the Map lookup attaches to the stored promise or inserts a new pending one, exactly as the `Admit` step, keeping the invariant |
| `Proxy.RequestCache.Settle` | index.js:116-133 | the continuation performs exactly the settle step and issues no fetch |
| `Proxy.RequestCache.Expire` | index.js:130-132 | the timer callback performs exactly the expiry step |
| `Cache.DeliveredIsFinal` | index.js:137-143 | once a reply has delivered a value, no event changes it |
| `Cache.DeliveredIsFinalRun` | index.js:137-143 | no run changes it either: every waiter on a promise receives its one settled value |
| `Proxy.RequestCache.Delivery` | index.js:137-143 | a waiter has the promise's value once settled, and nothing while its fetch is pending |

## Left out

- HTTP server and client plumbing is I/O and is not modelled: `createServer`, `listen`, choosing https or http by URL prefix, `writeHead`/`end`/`writeTo`, and the try/catch around `writeTo`. A fetch is a `Settlement` event that carries its outcome.
- Upstream.MakeRequest: chunks arrive already decoded as strings (the UTF-8 decoding of `setEncoding` is not modelled). The promise's resolution happens at the `Settlement` event.
- Timers and real time are not modelled. Expiry is an explicit `Expiry` event. The TTL value and its coercion from the environment variable do not appear.
- Environment configuration and console logging are not modelled. Neither is a missing `MATRIX_SERVER` or `MATRIX_ACCESS_TOKEN`; the token is a `Config` field.
- path-to-regexp matching is foreign code. It is the `Config.matches` parameter, so trailing-slash, case and decoding rules are not modelled.
- JSON.parse is foreign code. It is the `Config.parse` parameter. Only for the transport-failure body do the lemmas require that it returns the two-member object.
- WHATWG URL parsing and serialisation are foreign code. The key is the pair (pathname, final parameter list), which takes serialisation to be injective. Requests arrive already parsed. A `new URL` that throws is not modelled. Neither is a request target that changes the origin, whether absolute-form or `//host/...`. Nor is a `#fragment` that reaches `req.url`: it would be part of the serialised key, while the pair drops it.
- Headers are `map<string, string>`. Node can also give an array for a repeated header; headers are passed through unchanged either way.
- Fetches that never settle are allowed: nothing forces a `Settlement` event, and a pending entry then stays forever.
- After a cursor predicate throws, the derived promise rejects and nothing handles it. Under Node's default since version 15, that unhandled rejection ends the process. The model follows the code's effect on the Map: the entry stays and no timer is armed.
- Json.Property: does not model properties inherited from a prototype. This is sound for the table's field names (`next_batch`, `end`, `since`, `from`), which no built-in prototype defines.
- Json.UnescapeEscape: the reference decoder does not decode surrogate `\u` escapes, and JSON.stringify's escaping of lone surrogates is absent. A Dafny `char` is a Unicode scalar value and cannot hold a lone surrogate.
- Errors.InvalidMethodBodyText, Errors.UnknownRequestBodyText, Errors.ProxyFailureBodyText: give each error body as prefix, quoted fields, infix and suffix, not as one string literal. Comparing the whole literal is too costly for the verifier.
