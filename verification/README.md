# cacheProxy request handler in Dafny

This project models the request handler of `cacheProxy`, a caching HTTP forward proxy written in Go.
Each inbound request is resolved against one configured origin.
The cache key is the origin followed by the request path.
A key that is already in the in-memory cache is answered from memory.
On a miss a request for the origin and path is handed to the HTTP client, and a full response it returns is stored under the key.

The handler `(*application).request` is modelled as one pure step, `Proxy.Handle`.
It takes the cache map, the configuration, the request, an abstract upstream `Outcome` and whether the write to the caller succeeded.
It returns the new cache map and the `Response`.
The `Response` records:
- the header map the handler built, including the `X-Cache` marker (on an error path, before `http.Error` edits it);
- the status;
- the body, or the error text passed to `http.Error`;
- the outbound request handed to the HTTP client, if one was built;
- whether the write to the caller went through.

`Session.Run` chains such steps over a sequence of requests.
The cache map is the only state carried between requests.

Modules:
- `Headers` models `http.Header` as a map from name to an ordered list of values. It covers `Get`, `Set` and `Add`. `CopyHeaders` is the nested loop that copies the upstream headers onto the response writer.
- `Proxy` holds the data model (`Config`, `Request`, `CachedResponse`, `Store`, `Outcome`, `Response`), the key rule `CacheKey`, the step `Handle` and the facts about one request.
- `Session` holds runs of requests and the facts about them.

The model follows the code where it departs from what a caching proxy would usually do (replay the stored status and headers, keep its own marker header unique, serialise access to the cache):
- A hit always answers status 200, because a cache entry stores only the body and the headers, never the status. `HitAfterSuccessfulMiss` shows that a path whose first answer was, say, 404 is answered 200 on every later request.
- A hit replays only the stored body. The stored headers are kept in the entry but are never written to the caller. On a hit the handler's header map holds only `X-Cache: HIT`.
- On a miss, `X-Cache` is set to `MISS` before the upstream headers are added with `Add`. If the upstream itself sends `X-Cache`, its values follow `MISS` under that name rather than being dropped. `Header.Get` still reads `MISS` (`MarkerTellsHitFromMiss`).
- There is no locking and no single-flight. The model is sequential: one request completes before the next starts.
- The cache key ignores the method and the query string, so requests that differ only in those share an entry (`SamePathSameTreatment`). The query string is neither part of the key nor forwarded: the outbound URL is the key itself.

## Model

| member | source | states |
|---|---|---|
| Proxy.CacheKey | cmd/cli/main.go:53 | the key is the origin followed by the request path, and it splits back into exactly those two parts |
| Proxy.KeyDeterminesPath | cmd/cli/main.go:53 | under one origin, two requests share a key if and only if their paths are equal |
| Proxy.SamePathSameTreatment | cmd/cli/main.go:53-56 | given the same upstream outcome, requests with the same path, whatever their method, query, headers or body, leave the same cache and get the same response; only the forwarded request differs |
| Proxy.Handle | cmd/cli/main.go:52-109 | one request never removes a key; the cache changes only on a miss whose upstream answered in full; any request handed to the HTTP client is addressed to the cache key's URL |
| Proxy.HitServesStoredBody | cmd/cli/main.go:56-63 | on a hit the upstream is not contacted, the cache is unchanged, and the caller gets status 200 and the stored body, and the handler's header map holds only `X-Cache: HIT` |
| Proxy.MarkerTellsHitFromMiss | cmd/cli/main.go:56-66 | `X-Cache` reads HIT if and only if the key was cached, and MISS if and only if it was not, even when the upstream sends its own `X-Cache` |
| Proxy.FailureIsNotCached | cmd/cli/main.go:66-95 | if the request cannot be built, `client.Do` returns an error or the body cannot be read, the caller gets 500 with an error text and the cache is unchanged; only a request that could be built is handed to the HTTP client |
| Proxy.UpstreamHeadersRelayed | cmd/cli/main.go:83-95 | once an upstream response arrives, the writer's header map after the copy loop (84-88) holds every upstream value in order, whether or not the body read then succeeds (on that failure path, before `http.Error` edits the map); `X-Cache` holds MISS followed by the upstream's values |
| Proxy.SuccessStoresOneEntry | cmd/cli/main.go:97-104 | a successful miss adds exactly the request's key, holding the upstream body and headers; every other entry is unchanged; the caller gets the upstream status and body; the request handed to the HTTP client is addressed to origin+path and carries the inbound method, headers and body |
| Proxy.StepKeys | cmd/cli/main.go:56-101 | one request adds the request's key if the upstream answered in full, adds no key otherwise, and never removes one |
| Proxy.WriteFailureKeepsCache | cmd/cli/main.go:97-108 | a failed write to the caller leaves the same cache and the same response as a successful write, except that it is not delivered |
| Proxy.HitAfterSuccessfulMiss | cmd/cli/main.go:53-101 | after a successful miss, the next request for the same path is a hit that is not forwarded and gets status 200 and the fetched body, whatever status the upstream answered |
| Proxy.RetryAfterFailure | cmd/cli/main.go:66-101 | after a failed miss, the next request for the same path is a miss again; it is forwarded unless its own request cannot be built, and a full response is then cached |
| Headers.AddEach | cmd/cli/main.go:85-87 | adding the values of one name one at a time appends them all, in order, after that name's existing values; no other name changes |
| Headers.CopyHeaders | cmd/cli/main.go:83-88 | copying every upstream header onto the writer gives the same result in any name order: each name holds its old values followed by all upstream values; only names with at least one value are created |
| Session.Run | cmd/cli/main.go:20-25 | a run of requests yields one response per request and never loses a cached key |
| Session.CachedEntryIsFrozen | cmd/cli/main.go:56-101 | once a key is cached, its entry never changes for the rest of the run |
| Session.CachedKeyAlwaysHits | cmd/cli/main.go:56-63 | once a key is cached, every later request for it is a HIT that is not forwarded and gets 200 and the stored body |
| Session.EntryIsFirstSuccess | cmd/cli/main.go:97-101 | every entry a run adds is the body and headers of the first full upstream response for its key; every earlier request for that key failed |
| Session.StoredKeys | cmd/cli/main.go:66-101 | the final keys are exactly the initial keys plus the key of every request whose upstream answered in full |

## Left out

- `main` (cmd/cli/main.go:27-50) is left out: flag parsing, the defaults `3000` and `https://google.com`, and `ListenAndServe` are process start-up and I/O. `Config.port` is carried but never read by the handler.
- `http.NewRequest`, `http.Client.Do`, `io.ReadAll` and `resp.Body.Close` are network calls. They appear only through the abstract `Outcome` input, which names the branch each one took.
- The extra work done by `http.Error` is part of `net/http` and is not modelled: it deletes `Content-Length`, sets `Content-Type` and `X-Content-Type-Options`, and adds a trailing newline. An error response records the status 500, the message text, and the writer's header map as it stands before `http.Error` edits it; so on the body-read failure path the upstream `Content-Type` shown in the model is overwritten on the wire.
- What reaches the wire after a failed write to the caller is not modelled. It depends on `net/http` internals: the later `http.Error` call comes after `WriteHeader`. A failed write is modelled only as `delivered == false`, after the cache write.
- `WriteHeader` panics on an invalid status code. This is not modelled: the upstream status is relayed as given.
- Concurrency is left out. Requests run one goroutine each and share the map without a lock. That is a data race, not a sequential property, so runs are modelled one request after another.
- Header-name canonicalisation in `Header.Set`/`Add`/`Get` is left out: names are compared as plain strings.
- `ServeHTTP` (cmd/cli/main.go:111-113) only delegates to the handler, so it is not modelled separately.
- Bodies are byte sequences read in full. Streaming of the inbound body into the outbound request is not modelled: the outbound request records the inbound body as a value.
- `http.Client` follows redirects (up to ten, with no `CheckRedirect` set at cmd/cli/main.go:75), so a full response may come from another URL, and after a 301, 302 or 303 from a bodiless GET. The model records only the first request handed to the client; the response cached under origin+path is whatever the client finally returned.
- Headers that `net/http` adds to every response on its own are not modelled: `Date`, `Content-Length`, and a `Content-Type` guessed from the first body bytes when the handler set none (as on a hit). The response records only the header map the handler itself builds.
