/**
 A run of the proxy: requests handled one after another against the one cache
 map, which is the only state carried from request to request.
 */
module Session {
  import opened Proxy

  /** One request together with what its upstream exchange and its write to the caller did. */
  datatype Event = Event(req: Request, upstream: Outcome, client: WriteOutcome)

  /** The cache after a run and the responses, one per request, in order. */
  datatype Trace = Trace(store: Store, responses: seq<Response>)

  /** The key an event's request is cached under. */
  function KeyOf(cfg: Config, e: Event): string
  {
    CacheKey(cfg.origin, e.req.path)
  }

  /** The entry `e` would store under `k`, when `e` is a full upstream response for `k`. */
  predicate Fetched(cfg: Config, e: Event, k: string, entry: CachedResponse)
  {
    && e.upstream.Ok?
    && KeyOf(cfg, e) == k
    && entry == CachedResponse(e.upstream.body, e.upstream.upstreamHeaders)
  }

  /** Handles the requests of `events` in order, each against the cache the previous one left. */
  function Run(store: Store, cfg: Config, events: seq<Event>): (t: Trace)
    ensures |t.responses| == |events|
    ensures store.Keys <= t.store.Keys
    decreases |events|
  {
    if events == [] then Trace(store, [])
    else
      var s := Handle(store, cfg, events[0].req, events[0].upstream, events[0].client);
      var rest := Run(s.store, cfg, events[1..]);
      Trace(rest.store, [s.response] + rest.responses)
  }

  /** Nothing ever replaces a cached entry: once stored, a key keeps its body and headers for the rest of the run. */
  lemma {:induction false} CachedEntryIsFrozen(store: Store, cfg: Config, events: seq<Event>, k: string)
    requires k in store
    ensures k in Run(store, cfg, events).store
    ensures Run(store, cfg, events).store[k] == store[k]
    decreases |events|
  {
    if events != [] {
      var s := Handle(store, cfg, events[0].req, events[0].upstream, events[0].client);
      assert s.store[k] == store[k];
      CachedEntryIsFrozen(s.store, cfg, events[1..], k);
    }
  }

  /**
   Once a key is cached, every later request for it in the run is a hit: it
   is never forwarded, is marked HIT and gets status 200 and the stored body.
   */
  lemma {:induction false} CachedKeyAlwaysHits(store: Store, cfg: Config, events: seq<Event>, k: string)
    requires k in store
    ensures var t := Run(store, cfg, events);
      forall i :: 0 <= i < |events| && KeyOf(cfg, events[i]) == k ==>
        && t.responses[i].outbound == NotForwarded
        && Marker(t.responses[i]) == Hit
        && t.responses[i].status == StatusOK
        && t.responses[i].payload == Body(store[k].body)
    decreases |events|
  {
    if events != [] {
      var e := events[0];
      var s := Handle(store, cfg, e.req, e.upstream, e.client);
      assert s.store == store || k != KeyOf(cfg, e);
      assert s.store[k] == store[k];
      CachedKeyAlwaysHits(s.store, cfg, events[1..], k);
      var t := Run(store, cfg, events);
      forall i | 0 <= i < |events| && KeyOf(cfg, events[i]) == k
        ensures && t.responses[i].outbound == NotForwarded
                && Marker(t.responses[i]) == Hit
                && t.responses[i].status == StatusOK
                && t.responses[i].payload == Body(store[k].body)
      {
        if i == 0 {
          HitServesStoredBody(store, cfg, e.req, e.upstream, e.client);
          MarkerTellsHitFromMiss(store, cfg, e.req, e.upstream, e.client);
        } else {
          assert events[1..][i - 1] == events[i];
        }
      }
    }
  }

  /**
   Every entry a run adds comes from the first full upstream response for its
   key: there is a request for that key whose upstream answered in full,
   every earlier request for the key failed, and the entry is that
   response's body and headers. Entries already cached are kept as they were.
   */
  lemma {:induction false} EntryIsFirstSuccess(store: Store, cfg: Config, events: seq<Event>, k: string)
    requires k in Run(store, cfg, events).store
    ensures var t := Run(store, cfg, events);
      if k in store then t.store[k] == store[k]
      else exists i :: 0 <= i < |events| && Fetched(cfg, events[i], k, t.store[k]) &&
             forall j :: 0 <= j < i && KeyOf(cfg, events[j]) == k ==> !events[j].upstream.Ok?
    decreases |events|
  {
    var t := Run(store, cfg, events);
    if k in store {
      CachedEntryIsFrozen(store, cfg, events, k);
    } else {
      assert events != [];
      var e := events[0];
      var s := Handle(store, cfg, e.req, e.upstream, e.client);
      if KeyOf(cfg, e) == k && e.upstream.Ok? {
        SuccessStoresOneEntry(store, cfg, e.req, e.upstream.status, e.upstream.upstreamHeaders, e.upstream.body, e.client);
        CachedEntryIsFrozen(s.store, cfg, events[1..], k);
        assert Fetched(cfg, events[0], k, t.store[k]);
      } else {
        assert k !in s.store;
        EntryIsFirstSuccess(s.store, cfg, events[1..], k);
        var i' :| 0 <= i' < |events[1..]| && Fetched(cfg, events[1..][i'], k, t.store[k]) &&
             forall j :: 0 <= j < i' && KeyOf(cfg, events[1..][j]) == k ==> !events[1..][j].upstream.Ok?;
        assert events[1..][i'] == events[i' + 1];
        forall j | 0 <= j < i' + 1 && KeyOf(cfg, events[j]) == k
          ensures !events[j].upstream.Ok?
        {
          if j > 0 {
            assert events[1..][j - 1] == events[j];
          }
        }
      }
    }
  }

  /** The keys of the requests in `events` whose upstream answered in full. */
  function SucceededKeys(cfg: Config, events: seq<Event>): set<string>
  {
    set i | 0 <= i < |events| && events[i].upstream.Ok? :: KeyOf(cfg, events[i])
  }

  /** The succeeded keys of a run split into those of its first request and those of the rest. */
  lemma SucceededKeysSplit(cfg: Config, events: seq<Event>)
    requires events != []
    ensures SucceededKeys(cfg, events)
         == (if events[0].upstream.Ok? then {KeyOf(cfg, events[0])} else {}) + SucceededKeys(cfg, events[1..])
  {
    var rest := events[1..];
    var first: set<string> := if events[0].upstream.Ok? then {KeyOf(cfg, events[0])} else {};
    forall k | k in SucceededKeys(cfg, rest)
      ensures k in SucceededKeys(cfg, events)
    {
      var i :| 0 <= i < |rest| && rest[i].upstream.Ok? && KeyOf(cfg, rest[i]) == k;
      assert rest[i] == events[i + 1];
    }
    forall k | k in SucceededKeys(cfg, events)
      ensures k in first + SucceededKeys(cfg, rest)
    {
      var i :| 0 <= i < |events| && events[i].upstream.Ok? && KeyOf(cfg, events[i]) == k;
      if i > 0 {
        assert rest[i - 1] == events[i];
      }
    }
  }

  /**
   The keys a run ends with are the keys it started with together with the
   key of every request whose upstream answered in full: failures add no key
   and no key is ever removed.
   */
  lemma {:induction false} StoredKeys(store: Store, cfg: Config, events: seq<Event>)
    ensures Run(store, cfg, events).store.Keys == store.Keys + SucceededKeys(cfg, events)
    decreases |events|
  {
    if events == [] {
      assert SucceededKeys(cfg, events) == {};
    } else {
      var e := events[0];
      var s := Handle(store, cfg, e.req, e.upstream, e.client);
      StoredKeys(s.store, cfg, events[1..]);
      SucceededKeysSplit(cfg, events);
      StepKeys(store, cfg, e.req, e.upstream, e.client);
    }
  }
}
