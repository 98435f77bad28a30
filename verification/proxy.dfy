/**
 The caching forward proxy's request handler. One inbound request is one pure
 step: given the cache before the request, the configured origin, the request
 and what the upstream did, `Handle` yields the cache after the request and the
 response written to the caller. The network is not modelled: `Outcome` says
 which of the handler's branches the upstream exchange took.
 */
module Proxy {
  import opened Headers

  newtype byte = x: int | 0 <= x < 256

  /** The process configuration: the listening port and the origin every path is resolved against. */
  datatype Config = Config(port: int, origin: string)

  /**
   An inbound request. Only `path` takes part in the cache key. On a miss the
   method (`verb`), the headers and the body are forwarded; the query string is
   neither part of the key nor forwarded, since the outbound URL is the key.
   */
  datatype Request = Request(verb: string, path: string, query: string, headers: Header, body: seq<byte>)

  /** A cache entry: the upstream body and the upstream headers. No status is stored. */
  datatype CachedResponse = CachedResponse(body: seq<byte>, headers: Header)

  /** The cache: from cache key to the response stored under it. */
  type Store = map<string, CachedResponse>

  /** How the upstream exchange of a miss ended. */
  datatype Outcome =
    | ConstructFail                                             // the outbound request could not be built
    | TransportFail                                             // the request was handed to the HTTP client, which returned an error
    | ReadFail(upstreamHeaders: Header)                         // a response came back but its body could not be read
    | Ok(status: int, upstreamHeaders: Header, body: seq<byte>) // a full response came back

  /** Whether writing the response to the caller succeeded. */
  datatype WriteOutcome = Written | WriteFailed

  /** The outbound request the handler handed to the HTTP client, if it built one. */
  datatype Outbound =
    | NotForwarded
    | Forwarded(verb: string, url: string, headers: Header, body: seq<byte>)

  /** A response body: bytes from the cache or the upstream, or the text of a server error. */
  datatype Payload = Body(bytes: seq<byte>) | ErrorText(message: string)

  /**
   What the caller receives: the header map the handler built (on an error
   path, as it stands before `http.Error` makes its own edits), the status, the
   payload, the outbound request made on its behalf, and whether the write to
   the caller went through.
   */
  datatype Response = Response(headers: Header, status: int, payload: Payload, outbound: Outbound, delivered: bool)

  /** The result of handling one request: the cache afterwards and the response. */
  datatype Step = Step(store: Store, response: Response)

  const CacheHeader := "X-Cache"
  const Hit := "HIT"
  const Miss := "MISS"
  const StatusOK := 200
  const StatusInternalServerError := 500

  /**
   The cache key of a request: the configured origin followed by the request
   path. The key splits back into exactly those two parts.
   */
  function CacheKey(origin: string, path: string): (key: string)
    ensures |key| == |origin| + |path|
    ensures key[..|origin|] == origin && key[|origin|..] == path
  {
    origin + path
  }

  /** The marker a response carries in its `X-Cache` header, as `Header.Get` reads it. */
  function Marker(r: Response): string
  {
    Get(r.headers, CacheHeader)
  }

  /**
   One request through the proxy. A key already cached is answered from the
   cache with status 200 and the stored body only. Otherwise the response is
   marked MISS first and the upstream outcome decides the rest: the three
   failures answer 500 and leave the cache alone, a full response is stored
   under the key and relayed with the upstream status.
   */
  function Handle(store: Store, cfg: Config, req: Request, upstream: Outcome, client: WriteOutcome): (s: Step)
    ensures store.Keys <= s.store.Keys
    ensures s.store != store ==> CacheKey(cfg.origin, req.path) !in store && upstream.Ok?
    ensures s.response.outbound.Forwarded? ==> s.response.outbound.url == CacheKey(cfg.origin, req.path)
  {
    var key := CacheKey(cfg.origin, req.path);
    var delivered := client == Written;
    if key in store then
      Step(store, Response(Set(map[], CacheHeader, Hit), StatusOK, Body(store[key].body), NotForwarded, delivered))
    else
      var marked := Set(map[], CacheHeader, Miss);
      var outbound := Forwarded(req.verb, key, req.headers, req.body);
      match upstream
      case ConstructFail =>
        Step(store, Response(marked, StatusInternalServerError, ErrorText("Failed to create request"), NotForwarded, delivered))
      case TransportFail =>
        Step(store, Response(marked, StatusInternalServerError, ErrorText("Failed to forward request"), outbound, delivered))
      case ReadFail(h) =>
        Step(store, Response(AppendAll(marked, h), StatusInternalServerError, ErrorText("Failed to read response body"), outbound, delivered))
      case Ok(status, h, body) =>
        Step(store[key := CachedResponse(body, h)], Response(AppendAll(marked, h), status, Body(body), outbound, delivered))
  }

  /** Under one origin, two paths share a cache key exactly when they are the same path. */
  lemma KeyDeterminesPath(origin: string, p1: string, p2: string)
    ensures CacheKey(origin, p1) == CacheKey(origin, p2) <==> p1 == p2
  {
    if CacheKey(origin, p1) == CacheKey(origin, p2) {
      assert p1 == CacheKey(origin, p1)[|origin|..];
    }
  }

  /**
   Requests with the same path are the same cache entry: given the same
   upstream outcome, whatever their method, query string, headers or body,
   they leave the same cache and get the same response, apart from the
   outbound request carrying their own method, headers and body.
   */
  lemma SamePathSameTreatment(store: Store, cfg: Config, r1: Request, r2: Request, upstream: Outcome, client: WriteOutcome)
    requires r1.path == r2.path
    ensures CacheKey(cfg.origin, r1.path) == CacheKey(cfg.origin, r2.path)
    ensures Handle(store, cfg, r1, upstream, client).store == Handle(store, cfg, r2, upstream, client).store
    ensures Handle(store, cfg, r1, upstream, client).response.(outbound := NotForwarded)
         == Handle(store, cfg, r2, upstream, client).response.(outbound := NotForwarded)
  {
  }

  /**
   A hit never reaches the upstream: the cache is unchanged, the response is
   marked HIT with status 200 and the stored body, and the stored headers are
   not replayed: the marker is the only header the handler sets.
   */
  lemma HitServesStoredBody(store: Store, cfg: Config, req: Request, upstream: Outcome, client: WriteOutcome)
    requires CacheKey(cfg.origin, req.path) in store
    ensures var s := Handle(store, cfg, req, upstream, client);
      && s.store == store
      && s.response.outbound == NotForwarded
      && s.response.status == StatusOK
      && s.response.payload == Body(store[CacheKey(cfg.origin, req.path)].body)
      && s.response.headers == map[CacheHeader := [Hit]]
  {
  }

  /** The response is marked HIT exactly when the key was cached, and MISS exactly when it was not. */
  lemma MarkerTellsHitFromMiss(store: Store, cfg: Config, req: Request, upstream: Outcome, client: WriteOutcome)
    ensures var r := Handle(store, cfg, req, upstream, client).response;
      && (Marker(r) == Hit <==> CacheKey(cfg.origin, req.path) in store)
      && (Marker(r) == Miss <==> CacheKey(cfg.origin, req.path) !in store)
  {
    var key := CacheKey(cfg.origin, req.path);
    var r := Handle(store, cfg, req, upstream, client).response;
    if key !in store {
      var marked := Set(map[], CacheHeader, Miss);
      assert Values(marked, CacheHeader) == [Miss];
      match upstream
      case ReadFail(h) =>
        assert Values(r.headers, CacheHeader) == [Miss] + Values(h, CacheHeader);
      case Ok(_, h, _) =>
        assert Values(r.headers, CacheHeader) == [Miss] + Values(h, CacheHeader);
      case _ =>
    }
  }

  /**
   A failed upstream exchange answers 500 with the handler's error text and
   leaves the cache untouched. A request that could not be built is never
   handed to the HTTP client; on a transport or body-read failure it was,
   whether or not anything reached the origin.
   */
  lemma FailureIsNotCached(store: Store, cfg: Config, req: Request, upstream: Outcome, client: WriteOutcome)
    requires CacheKey(cfg.origin, req.path) !in store
    requires !upstream.Ok?
    ensures var s := Handle(store, cfg, req, upstream, client);
      && s.store == store
      && s.response.status == StatusInternalServerError
      && s.response.payload.ErrorText?
      && (s.response.outbound.Forwarded? <==> !upstream.ConstructFail?)
  {
  }

  /**
   The writer's header map after the copy loop: on a miss whose response
   arrived (whether or not its body could then be read) each name other than
   `X-Cache` carries exactly the upstream values, in order, and `X-Cache`
   carries MISS followed by whatever the upstream sent under that name. On the
   body-read failure path this is the map before `http.Error` edits it.
   */
  lemma UpstreamHeadersRelayed(store: Store, cfg: Config, req: Request, upstream: Outcome, client: WriteOutcome)
    requires CacheKey(cfg.origin, req.path) !in store
    requires upstream.ReadFail? || upstream.Ok?
    ensures var r := Handle(store, cfg, req, upstream, client).response;
      && Values(r.headers, CacheHeader) == [Miss] + Values(upstream.upstreamHeaders, CacheHeader)
      && forall n :: n != CacheHeader ==> Values(r.headers, n) == Values(upstream.upstreamHeaders, n)
  {
    var marked := Set(map[], CacheHeader, Miss);
    assert forall n :: n != CacheHeader ==> Values(marked, n) == [];
  }

  /**
   A successful miss writes exactly one entry: the body and headers of the
   upstream response under the request's key; every other key keeps its entry.
   The caller gets the upstream status and body.
   */
  lemma SuccessStoresOneEntry(store: Store, cfg: Config, req: Request, status: int, h: Header, body: seq<byte>, client: WriteOutcome)
    requires CacheKey(cfg.origin, req.path) !in store
    ensures var key := CacheKey(cfg.origin, req.path);
      var s := Handle(store, cfg, req, Ok(status, h, body), client);
      && s.store.Keys == store.Keys + {key}
      && s.store[key] == CachedResponse(body, h)
      && (forall k :: k in store ==> s.store[k] == store[k])
      && s.response.status == status
      && s.response.payload == Body(body)
      && s.response.outbound == Forwarded(req.verb, key, req.headers, req.body)
  {
  }

  /**
   The keys after one request: a full upstream response adds the request's
   key (a no-op when it was already cached), anything else adds none, and no
   key is ever removed.
   */
  lemma StepKeys(store: Store, cfg: Config, req: Request, upstream: Outcome, client: WriteOutcome)
    ensures Handle(store, cfg, req, upstream, client).store.Keys
         == store.Keys + (if upstream.Ok? then {CacheKey(cfg.origin, req.path)} else {})
  {
  }

  /**
   A failed write to the caller happens after the cache was written and does
   not undo it: the cache and everything but delivery are the same as when the
   write succeeds.
   */
  lemma WriteFailureKeepsCache(store: Store, cfg: Config, req: Request, upstream: Outcome)
    ensures var ok := Handle(store, cfg, req, upstream, Written);
      var failed := Handle(store, cfg, req, upstream, WriteFailed);
      && failed.store == ok.store
      && failed.response == ok.response.(delivered := false)
      && ok.response.delivered
  {
  }

  /**
   After a successful miss the next request for the same path is a hit, even
   with a different method or query: it is not forwarded, gets status 200
   whatever status the upstream answered, and gets the body the upstream sent.
   */
  lemma HitAfterSuccessfulMiss(store: Store, cfg: Config, r1: Request, r2: Request,
                               status: int, h: Header, body: seq<byte>, next: Outcome,
                               c1: WriteOutcome, c2: WriteOutcome)
    requires r1.path == r2.path
    ensures var first := Handle(store, cfg, r1, Ok(status, h, body), c1);
      var second := Handle(first.store, cfg, r2, next, c2);
      && second.store == first.store
      && Marker(second.response) == Hit
      && second.response.outbound == NotForwarded
      && second.response.status == StatusOK
      && (CacheKey(cfg.origin, r1.path) !in store ==> second.response.payload == Body(body))
  {
    var first := Handle(store, cfg, r1, Ok(status, h, body), c1);
    assert CacheKey(cfg.origin, r2.path) in first.store;
  }

  /**
   A failure is never served later: after a failed miss, the next request for
   the same path is a miss again, goes to the upstream unless its own request
   cannot be built, and caches a full response if one comes back.
   */
  lemma RetryAfterFailure(store: Store, cfg: Config, r1: Request, r2: Request, failure: Outcome, next: Outcome,
                          c1: WriteOutcome, c2: WriteOutcome)
    requires r1.path == r2.path
    requires CacheKey(cfg.origin, r1.path) !in store
    requires !failure.Ok?
    ensures var first := Handle(store, cfg, r1, failure, c1);
      var second := Handle(first.store, cfg, r2, next, c2);
      && Marker(second.response) == Miss
      && (second.response.outbound.Forwarded? <==> !next.ConstructFail?)
      && (next.Ok? ==> CacheKey(cfg.origin, r2.path) in second.store)
  {
    var first := Handle(store, cfg, r1, failure, c1);
    MarkerTellsHitFromMiss(first.store, cfg, r2, next, c2);
  }
}
