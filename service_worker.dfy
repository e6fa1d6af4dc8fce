/**
 * The offline cache controller of `public/sw.js`.
 *
 * The browser's CacheStorage is a map from cache names to caches, and a
 * cache is a map from request URLs to stored responses. The network is not
 * modelled: every operation that fetches takes the fetch's outcome as an
 * argument (a resolved response, ok or not, or a thrown error) and reports
 * how many fetches it issued.
 */
module ServiceWorker {
  import opened Optional
  import opened Strings

  const SHELL_CACHE: string := "synthia-shell-v1"
  const RUNTIME_CACHE: string := "synthia-runtime-v1"

  /** The app-shell paths stored at install time, relative to the worker's origin. */
  const SHELL_ASSETS: seq<string> := [
    "/",
    "/dashboard",
    "/offline",
    "/manifest.webmanifest",
    "/icons/icon-192.png",
    "/icons/icon-512.png",
    "/icons/icon-192-maskable.png",
    "/icons/icon-512-maskable.png",
    "/icons/apple-touch-icon.png"
  ]

  const OFFLINE_PATH: string := "/offline"
  const HMR_PREFIX: string := "/_next/webpack-hmr"
  const API_PREFIX: string := "/api/"
  const NETWORK_FAILED: string := "network-failed"
  /** The reason a rejected `fetch` carries. */
  const FETCH_FAILED: string := "fetch-failed"

  /** `Request.destination`; `Empty` is the empty string `""`. */
  datatype Destination = Document | Style | Script | Image | Font | Audio | Video | Empty | OtherDestination

  /** `URL.origin`, split into its protocol (with the colon, as `URL.protocol`) and host. */
  datatype Origin = Origin(protocol: string, host: string)
  datatype Url = Url(origin: Origin, path: string, search: string)

  datatype Request = Request(httpMethod: string, destination: Destination, url: Url, navigate: bool)

  datatype Response = Response(status: int, body: string) {
    /** `Response.ok`: a status in the 200-299 range. */
    predicate Ok() {
      200 <= status <= 299
    }
  }

  /** `Response.error()`: a network-error response, status 0. */
  const ERROR_RESPONSE: Response := Response(0, "")

  /** What awaiting `fetch(request)` gives: a response (ok or not) or a thrown error. */
  datatype FetchOutcome = Resolved(response: Response) | Threw

  /** What the promise handed to `respondWith` settles to. */
  datatype Reply = Responded(response: Response) | Rejected(reason: string)

  type Cache = map<Url, Response>
  type CacheStorage = map<string, Cache>

  /** Every response held in every cache is an ok response. */
  ghost predicate AllOk(cs: CacheStorage) {
    forall name, u :: name in cs && u in cs[name] ==> cs[name][u].Ok()
  }

  // ---------------------------------------------------------------- routing

  /** `shouldBypassCache`: the request is left entirely to the browser. */
  predicate ShouldBypassCache(req: Request) {
    || req.httpMethod != "GET"
    || req.destination == Audio
    || req.destination == Video
    || (req.url.origin.protocol != "http:" && req.url.origin.protocol != "https:")
    || IsPrefix(HMR_PREFIX, req.url.path)
  }

  datatype Route = Bypass | NavigationRoute | ApiRoute | CacheFirstRoute | NotIntercepted

  predicate IsStaticAsset(d: Destination) {
    d == Style || d == Script || d == Image || d == Font
  }

  /** The branch the `fetch` listener takes for `req`, the worker's origin being `self`. */
  function RouteFor(req: Request, self: Origin): Route {
    if ShouldBypassCache(req) then Bypass
    else if req.navigate then NavigationRoute
    else if req.url.origin == self && IsPrefix(API_PREFIX, req.url.path) then ApiRoute
    else if IsStaticAsset(req.destination) then CacheFirstRoute
    else if req.url.origin == self then CacheFirstRoute
    else NotIntercepted
  }

  /** Precedence of the routes: navigation, then same-origin API, then assets, then same-origin. */
  lemma RoutePrecedence(req: Request, self: Origin)
    ensures RouteFor(req, self) == Bypass <==> ShouldBypassCache(req)
    ensures RouteFor(req, self) == NavigationRoute <==> !ShouldBypassCache(req) && req.navigate
    ensures RouteFor(req, self) == ApiRoute <==>
              !ShouldBypassCache(req) && !req.navigate && req.url.origin == self && IsPrefix(API_PREFIX, req.url.path)
    ensures RouteFor(req, self) == CacheFirstRoute <==>
              && !ShouldBypassCache(req) && !req.navigate
              && !(req.url.origin == self && IsPrefix(API_PREFIX, req.url.path))
              && (IsStaticAsset(req.destination) || req.url.origin == self)
    ensures RouteFor(req, self) == NotIntercepted <==>
              !ShouldBypassCache(req) && !req.navigate && req.url.origin != self && !IsStaticAsset(req.destination)
  {
  }

  /** Only GET requests over http(s) can ever reach a cache. */
  lemma CachedRoutesAreHttpGet(req: Request, self: Origin)
    requires RouteFor(req, self) in {NavigationRoute, ApiRoute, CacheFirstRoute}
    ensures req.httpMethod == "GET"
    ensures req.url.origin.protocol == "http:" || req.url.origin.protocol == "https:"
    ensures req.destination != Audio && req.destination != Video
    ensures !IsPrefix(HMR_PREFIX, req.url.path)
  {
  }

  // ------------------------------------------------------ cache strategies

  /** `caches.open(name)`: creates an empty cache when none has that name. */
  function Opened(cs: CacheStorage, name: string): (r: CacheStorage)
    ensures name in r && r.Keys == cs.Keys + {name}
    ensures forall n :: n in cs ==> r[n] == cs[n]
    ensures name !in cs ==> r[name] == map[]
  {
    if name in cs then cs else cs[name := map[]]
  }

  /** The reply, the caches afterwards and the number of network fetches issued. */
  datatype Step = Step(reply: Reply, caches: CacheStorage, fetches: nat)

  /** `if (response.ok) await cache.put(request, response.clone())` on the runtime cache. */
  function PutIfOk(cs: CacheStorage, u: Url, r: Response): CacheStorage
    requires RUNTIME_CACHE in cs
  {
    if r.Ok() then cs[RUNTIME_CACHE := cs[RUNTIME_CACHE][u := r]] else cs
  }

  /** `cacheFirst(request)`. */
  function CacheFirstStep(cs: CacheStorage, req: Request, net: FetchOutcome): Step {
    var ready := Opened(cs, RUNTIME_CACHE);
    var runtime := ready[RUNTIME_CACHE];
    if req.url in runtime then Step(Responded(runtime[req.url]), ready, 0)
    else match net
      case Threw => Step(Rejected(FETCH_FAILED), ready, 1)
      case Resolved(r) => Step(Responded(r), PutIfOk(ready, req.url, r), 1)
  }

  /** `networkFirst(request)`. */
  function NetworkFirstStep(cs: CacheStorage, req: Request, net: FetchOutcome): Step {
    var ready := Opened(cs, RUNTIME_CACHE);
    var runtime := ready[RUNTIME_CACHE];
    match net
    case Resolved(r) => Step(Responded(r), PutIfOk(ready, req.url, r), 1)
    case Threw =>
      if req.url in runtime then Step(Responded(runtime[req.url]), ready, 1)
      else Step(Rejected(NETWORK_FAILED), ready, 1)
  }

  /** The shell-cache key of a path given relative to the worker's origin. */
  function ShellUrl(self: Origin, path: string): Url {
    Url(self, path, "")
  }

  /** The navigation handler: network first, then `/offline` from the shell cache, then `Response.error()`. */
  function NavigationStep(cs: CacheStorage, req: Request, net: FetchOutcome, self: Origin): Step {
    var first := NetworkFirstStep(cs, req, net);
    if first.reply.Responded? then first
    else
      var ready := Opened(first.caches, SHELL_CACHE);
      var offline := ShellUrl(self, OFFLINE_PATH);
      var fallback := if offline in ready[SHELL_CACHE] then ready[SHELL_CACHE][offline] else ERROR_RESPONSE;
      Step(Responded(fallback), ready, first.fetches)
  }

  /** The result of one `fetch` event: the reply given to `respondWith`, if the worker answers at all. */
  datatype Dispatched = Dispatched(respondWith: Option<Reply>, caches: CacheStorage, fetches: nat)

  function Answer(s: Step): Dispatched {
    Dispatched(Some(s.reply), s.caches, s.fetches)
  }

  /** The `fetch` listener. */
  function DispatchStep(cs: CacheStorage, req: Request, net: FetchOutcome, self: Origin): Dispatched {
    match RouteFor(req, self)
    case Bypass => Dispatched(None, cs, 0)
    case NotIntercepted => Dispatched(None, cs, 0)
    case NavigationRoute => Answer(NavigationStep(cs, req, net, self))
    case ApiRoute => Answer(NetworkFirstStep(cs, req, net))
    case CacheFirstRoute => Answer(CacheFirstStep(cs, req, net))
  }

  // ------------------------------------------------- properties of fetching

  /** A runtime-cache hit is answered from the cache with no fetch and no write. */
  lemma CacheHitNeverFetches(cs: CacheStorage, req: Request, net: FetchOutcome)
    requires RUNTIME_CACHE in cs && req.url in cs[RUNTIME_CACHE]
    ensures CacheFirstStep(cs, req, net) == Step(Responded(cs[RUNTIME_CACHE][req.url]), cs, 0)
  {
  }

  /** A miss fetches exactly once, returns what the network gave, and stores it only when ok. */
  lemma CacheMissStoresOnlyOk(cs: CacheStorage, req: Request, r: Response)
    requires RUNTIME_CACHE !in cs || req.url !in cs[RUNTIME_CACHE]
    ensures var s := CacheFirstStep(cs, req, Resolved(r));
      && s.reply == Responded(r) && s.fetches == 1
      && (req.url in s.caches[RUNTIME_CACHE] <==> r.Ok())
      && (r.Ok() ==> s.caches[RUNTIME_CACHE][req.url] == r)
      && (forall u :: u != req.url ==> (u in s.caches[RUNTIME_CACHE] <==> u in Opened(cs, RUNTIME_CACHE)[RUNTIME_CACHE]))
  {
  }

  /** A thrown fetch on a cache-first miss rejects and writes nothing. */
  lemma CacheMissThrowRejects(cs: CacheStorage, req: Request)
    requires RUNTIME_CACHE !in cs || req.url !in cs[RUNTIME_CACHE]
    ensures CacheFirstStep(cs, req, Threw) == Step(Rejected(FETCH_FAILED), Opened(cs, RUNTIME_CACHE), 1)
  {
  }

  /**
   * Round trip: after a miss whose fetch gave an ok response, the same request
   * is answered with that response from the cache, with no fetch.
   */
  lemma {:induction false} CacheFirstRoundTrip(cs: CacheStorage, req: Request, r: Response, later: FetchOutcome)
    requires RUNTIME_CACHE !in cs || req.url !in cs[RUNTIME_CACHE]
    requires r.Ok()
    ensures var first := CacheFirstStep(cs, req, Resolved(r));
      var second := CacheFirstStep(first.caches, req, later);
      first.fetches == 1 && second.reply == Responded(r) && second.fetches == 0 && second.caches == first.caches
  {
    var first := CacheFirstStep(cs, req, Resolved(r));
    CacheMissStoresOnlyOk(cs, req, r);
    CacheHitNeverFetches(first.caches, req, later);
  }

  /** A fetch that resolves is returned as it is, whatever its status, and stored iff ok. */
  lemma NetworkFirstPassesThrough(cs: CacheStorage, req: Request, r: Response)
    ensures var s := NetworkFirstStep(cs, req, Resolved(r));
      && s.reply == Responded(r) && s.fetches == 1
      && (r.Ok() ==> s.caches[RUNTIME_CACHE][req.url] == r)
      && (!r.Ok() ==> s.caches == Opened(cs, RUNTIME_CACHE))
  {
  }

  /** Only a thrown fetch falls back to the runtime cache, and with no entry it rejects with `network-failed`. */
  lemma NetworkFirstFallback(cs: CacheStorage, req: Request)
    ensures var s := NetworkFirstStep(cs, req, Threw);
      var runtime := Opened(cs, RUNTIME_CACHE)[RUNTIME_CACHE];
      && s.caches == Opened(cs, RUNTIME_CACHE) && s.fetches == 1
      && (req.url in runtime ==> s.reply == Responded(runtime[req.url]))
      && (req.url !in runtime ==> s.reply == Rejected(NETWORK_FAILED))
  {
  }

  /**
   * A navigation never rejects: it is answered by the network, else by the
   * runtime entry for the same URL, else by `/offline` from the shell cache,
   * else by `Response.error()`.
   */
  lemma NavigationNeverRejects(cs: CacheStorage, req: Request, net: FetchOutcome, self: Origin)
    ensures var s := NavigationStep(cs, req, net, self);
      var runtime := Opened(cs, RUNTIME_CACHE)[RUNTIME_CACHE];
      var shell := Opened(Opened(cs, RUNTIME_CACHE), SHELL_CACHE)[SHELL_CACHE];
      var offline := ShellUrl(self, OFFLINE_PATH);
      && s.reply.Responded?
      && s.fetches == 1
      && (net.Resolved? ==> s.reply.response == net.response)
      && (net.Threw? && req.url in runtime ==> s.reply.response == runtime[req.url])
      && (net.Threw? && req.url !in runtime && offline in shell ==> s.reply.response == shell[offline])
      && (net.Threw? && req.url !in runtime && offline !in shell ==> s.reply.response == ERROR_RESPONSE)
  {
  }

  /** A bypassed request is never answered by the worker, never fetched by it, and never touches a cache. */
  lemma BypassTouchesNothing(cs: CacheStorage, req: Request, net: FetchOutcome, self: Origin)
    requires ShouldBypassCache(req)
    ensures DispatchStep(cs, req, net, self) == Dispatched(None, cs, 0)
  {
  }

  /** In particular a POST is never read from or written to any cache, whatever its destination or origin. */
  lemma PostBypass(cs: CacheStorage, req: Request, net: FetchOutcome, self: Origin)
    requires req.httpMethod == "POST"
    ensures DispatchStep(cs, req, net, self) == Dispatched(None, cs, 0)
  {
    BypassTouchesNothing(cs, req, net, self);
  }

  /** A cache write adds at most the request's own URL, to the runtime cache, and only an ok response. */
  predicate WritesOnlyOk(before: CacheStorage, after: CacheStorage, u: Url) {
    && after.Keys == before.Keys + {RUNTIME_CACHE}
    && (forall n :: n in before && n != RUNTIME_CACHE ==> after[n] == before[n])
    && (forall v :: v in after[RUNTIME_CACHE] && v != u ==>
          RUNTIME_CACHE in before && v in before[RUNTIME_CACHE] && after[RUNTIME_CACHE][v] == before[RUNTIME_CACHE][v])
    && ((u in after[RUNTIME_CACHE] && (RUNTIME_CACHE !in before || u !in before[RUNTIME_CACHE] ||
          after[RUNTIME_CACHE][u] != before[RUNTIME_CACHE][u])) ==> after[RUNTIME_CACHE][u].Ok())
  }

  lemma CacheFirstWritesOnlyOk(cs: CacheStorage, req: Request, net: FetchOutcome)
    ensures WritesOnlyOk(cs, CacheFirstStep(cs, req, net).caches, req.url)
  {
  }

  lemma NetworkFirstWritesOnlyOk(cs: CacheStorage, req: Request, net: FetchOutcome)
    ensures WritesOnlyOk(cs, NetworkFirstStep(cs, req, net).caches, req.url)
  {
  }

  /** No fetch event ever stores a non-ok response: a cache of ok responses stays so. */
  lemma {:induction false} DispatchKeepsAllOk(cs: CacheStorage, req: Request, net: FetchOutcome, self: Origin)
    requires AllOk(cs)
    ensures AllOk(DispatchStep(cs, req, net, self).caches)
  {
    var after := DispatchStep(cs, req, net, self).caches;
    match RouteFor(req, self)
    case Bypass =>
    case NotIntercepted =>
    case ApiRoute => NetworkFirstWritesOnlyOk(cs, req, net);
    case CacheFirstRoute => CacheFirstWritesOnlyOk(cs, req, net);
    case NavigationRoute =>
      var first := NetworkFirstStep(cs, req, net);
      NetworkFirstWritesOnlyOk(cs, req, net);
      assert AllOk(first.caches);
      assert after == first.caches || after == Opened(first.caches, SHELL_CACHE);
  }

  // ------------------------------------------------- install and activate

  /**
   * `cache.addAll(SHELL_ASSETS)`: every asset is fetched, and the entries are
   * stored only if every fetch resolved with an ok response; `outcomes[i]` is
   * the outcome of fetching `paths[i]`.
   */
  function FetchAll(paths: seq<string>, outcomes: seq<FetchOutcome>, self: Origin): (r: Option<Cache>)
    requires |paths| == |outcomes|
    ensures r.Some? <==> forall i :: 0 <= i < |outcomes| ==> outcomes[i].Resolved? && outcomes[i].response.Ok()
    ensures r.Some? ==> r.value.Keys == set i | 0 <= i < |paths| :: ShellUrl(self, paths[i])
    ensures r.Some? ==> forall u :: u in r.value ==> r.value[u].Ok()
    ensures r.Some? ==> forall i :: 0 <= i < |paths| && FirstOccurrence(paths, i) ==>
      r.value[ShellUrl(self, paths[i])] == outcomes[i].response
  {
    if paths == [] then Some(map[])
    else
      var rest := FetchAll(paths[1..], outcomes[1..], self);
      match outcomes[0]
      case Threw => None
      case Resolved(resp) =>
        if !resp.Ok() || rest.None? then None
        else
          assert forall i :: 0 <= i < |outcomes| ==> outcomes[i].Resolved? && outcomes[i].response.Ok() by {
            forall i | 1 <= i < |outcomes| ensures outcomes[i].Resolved? && outcomes[i].response.Ok() {
              assert outcomes[1..][i - 1] == outcomes[i];
            }
          }
          var m := rest.value[ShellUrl(self, paths[0]) := resp];
          AddedKeys(paths, self, rest.value, resp);
          AddedValues(paths, outcomes, self, rest.value);
          Some(m)
  }

  /** Storing the first path's entry over the rest's entries covers every path. */
  lemma AddedKeys(paths: seq<string>, self: Origin, rest: Cache, resp: Response)
    requires paths != [] && rest.Keys == set i | 0 <= i < |paths| - 1 :: ShellUrl(self, paths[1..][i])
    ensures rest[ShellUrl(self, paths[0]) := resp].Keys == set i | 0 <= i < |paths| :: ShellUrl(self, paths[i])
  {
    var m := rest[ShellUrl(self, paths[0]) := resp];
    forall u | u in m ensures exists i :: 0 <= i < |paths| && u == ShellUrl(self, paths[i]) {
      if u != ShellUrl(self, paths[0]) {
        var j :| 0 <= j < |paths| - 1 && u == ShellUrl(self, paths[1..][j]);
        assert u == ShellUrl(self, paths[j + 1]);
      }
    }
    forall i | 0 <= i < |paths| ensures ShellUrl(self, paths[i]) in m {
      if i > 0 {
        assert paths[i] == paths[1..][i - 1];
      }
    }
  }

  /**
   * Storing the first path's response over the rest's entries leaves each
   * path's first occurrence with its own response.
   */
  lemma AddedValues(paths: seq<string>, outcomes: seq<FetchOutcome>, self: Origin, rest: Cache)
    requires |paths| == |outcomes| && paths != []
    requires forall i :: 0 <= i < |outcomes| ==> outcomes[i].Resolved?
    requires forall i :: 0 <= i < |paths| - 1 && FirstOccurrence(paths[1..], i) ==>
      ShellUrl(self, paths[1..][i]) in rest && rest[ShellUrl(self, paths[1..][i])] == outcomes[1..][i].response
    ensures forall i :: 0 <= i < |paths| && FirstOccurrence(paths, i) ==>
      var m := rest[ShellUrl(self, paths[0]) := outcomes[0].response];
      ShellUrl(self, paths[i]) in m && m[ShellUrl(self, paths[i])] == outcomes[i].response
  {
    var m := rest[ShellUrl(self, paths[0]) := outcomes[0].response];
    forall i | 0 <= i < |paths| && FirstOccurrence(paths, i)
      ensures ShellUrl(self, paths[i]) in m && m[ShellUrl(self, paths[i])] == outcomes[i].response
    {
      if i > 0 {
        assert paths[1..][i - 1] == paths[i] && outcomes[1..][i - 1] == outcomes[i];
        assert FirstOccurrence(paths[1..], i - 1) by {
          forall j | 0 <= j < i - 1 ensures paths[1..][j] != paths[1..][i - 1] {
            assert paths[1..][j] == paths[j + 1];
          }
        }
        assert paths[0] != paths[i];
      }
    }
  }

  /** `paths[i]` does not occur earlier in `paths`. */
  predicate FirstOccurrence(paths: seq<string>, i: nat)
    requires i < |paths|
  {
    forall j :: 0 <= j < i ==> paths[j] != paths[i]
  }

  /** The shell paths are pairwise distinct, so each is its own first occurrence. */
  lemma ShellAssetsDistinct()
    ensures forall i :: 0 <= i < |SHELL_ASSETS| ==> FirstOccurrence(SHELL_ASSETS, i)
  {
  }

  /** The install handler: open the shell cache, then `addAll`. Returns whether install succeeded. */
  function InstallStep(cs: CacheStorage, outcomes: seq<FetchOutcome>, self: Origin): (bool, CacheStorage)
    requires |outcomes| == |SHELL_ASSETS|
  {
    var ready := Opened(cs, SHELL_CACHE);
    match FetchAll(SHELL_ASSETS, outcomes, self)
    case None => (false, ready)
    case Some(entries) => (true, ready[SHELL_CACHE := ready[SHELL_CACHE] + entries])
  }

  /** Install is all or nothing: on failure the shell cache is left as it was (ready, possibly empty). */
  lemma InstallAllOrNothing(cs: CacheStorage, outcomes: seq<FetchOutcome>, self: Origin)
    requires |outcomes| == |SHELL_ASSETS|
    ensures var (ok, after) := InstallStep(cs, outcomes, self);
      && (ok <==> forall i :: 0 <= i < |outcomes| ==> outcomes[i].Resolved? && outcomes[i].response.Ok())
      && (!ok ==> after == Opened(cs, SHELL_CACHE))
      && (ok ==> forall i :: 0 <= i < |SHELL_ASSETS| ==> ShellUrl(self, SHELL_ASSETS[i]) in after[SHELL_CACHE])
      && (ok ==> ShellUrl(self, OFFLINE_PATH) in after[SHELL_CACHE])
      && (ok ==> forall i :: 0 <= i < |SHELL_ASSETS| ==> after[SHELL_CACHE][ShellUrl(self, SHELL_ASSETS[i])] == outcomes[i].response)
      && (ok ==> after.Keys == Opened(cs, SHELL_CACHE).Keys)
      && (ok ==> forall n :: n in after && n != SHELL_CACHE ==> after[n] == cs[n])
      && (ok ==> forall u :: u in Opened(cs, SHELL_CACHE)[SHELL_CACHE] && u !in ShellUrls(self) ==>
                   u in after[SHELL_CACHE] && after[SHELL_CACHE][u] == Opened(cs, SHELL_CACHE)[SHELL_CACHE][u])
  {
    assert SHELL_ASSETS[2] == OFFLINE_PATH;
    ShellAssetsDistinct();
  }

  /** The URLs of the shell assets. */
  function ShellUrls(self: Origin): set<Url> {
    set i | 0 <= i < |SHELL_ASSETS| :: ShellUrl(self, SHELL_ASSETS[i])
  }

  /** Installing twice with the same network answers leaves the same caches as installing once. */
  lemma InstallIdempotent(cs: CacheStorage, outcomes: seq<FetchOutcome>, self: Origin)
    requires |outcomes| == |SHELL_ASSETS|
    ensures InstallStep(InstallStep(cs, outcomes, self).1, outcomes, self) == InstallStep(cs, outcomes, self)
  {
    var once := InstallStep(cs, outcomes, self).1;
    match FetchAll(SHELL_ASSETS, outcomes, self)
    case None =>
    case Some(entries) =>
      var shell := Opened(cs, SHELL_CACHE)[SHELL_CACHE] + entries;
      assert once == Opened(cs, SHELL_CACHE)[SHELL_CACHE := shell];
      assert Opened(once, SHELL_CACHE) == once;
      assert shell + entries == shell;
      assert once[SHELL_CACHE] == shell;
      assert once[SHELL_CACHE := shell] == once;
      assert InstallStep(once, outcomes, self) == (true, once);
  }

  /** An install keeps every cache ok: `addAll` stores only ok responses. */
  lemma InstallKeepsAllOk(cs: CacheStorage, outcomes: seq<FetchOutcome>, self: Origin)
    requires |outcomes| == |SHELL_ASSETS|
    requires AllOk(cs)
    ensures AllOk(InstallStep(cs, outcomes, self).1)
  {
  }

  /** The names `activate` deletes: `keys.filter((k) => ![SHELL_CACHE, RUNTIME_CACHE].includes(k))`. */
  function StaleNames(keys: seq<string>): (r: seq<string>)
    ensures forall k :: k in r <==> k in keys && k != SHELL_CACHE && k != RUNTIME_CACHE
  {
    if keys == [] then []
    else if keys[0] == SHELL_CACHE || keys[0] == RUNTIME_CACHE then StaleNames(keys[1..])
    else [keys[0]] + StaleNames(keys[1..])
  }

  /** The caches after `activate` has deleted every stale name. */
  function ActivateStep(cs: CacheStorage): CacheStorage {
    map k | k in cs && (k == SHELL_CACHE || k == RUNTIME_CACHE) :: cs[k]
  }

  /** Version isolation: exactly the current shell and runtime caches survive, untouched. */
  lemma ActivateKeepsCurrent(cs: CacheStorage, keys: seq<string>)
    requires forall k :: k in keys <==> k in cs
    ensures var after := ActivateStep(cs);
      && after.Keys == cs.Keys - (set k | k in StaleNames(keys))
      && (forall k :: k in after <==> k in cs && (k == SHELL_CACHE || k == RUNTIME_CACHE))
      && (forall k :: k in after ==> after[k] == cs[k])
  {
  }

  /**
   * The worker, with its CacheStorage. Each event handler takes the outcome
   * of the network fetch it would issue.
   */
  class Worker {
    const origin: Origin
    var caches: CacheStorage

    constructor (origin: Origin, existing: CacheStorage)
      ensures this.origin == origin && caches == existing
    {
      this.origin := origin;
      caches := existing;
    }

    /** `caches.open(name)`. */
    method Open(name: string)
      modifies this
      ensures caches == Opened(old(caches), name)
    {
      if name !in caches {
        caches := caches[name := map[]];
      }
    }

    /** `cache.put(url, response)` on the named cache. */
    method Put(name: string, u: Url, r: Response)
      requires name in caches
      modifies this
      ensures caches == old(caches)[name := old(caches)[name][u := r]]
    {
      caches := caches[name := caches[name][u := r]];
    }

    method CacheFirst(req: Request, net: FetchOutcome) returns (reply: Reply, fetches: nat)
      modifies this
      ensures Step(reply, caches, fetches) == CacheFirstStep(old(caches), req, net)
    {
      Open(RUNTIME_CACHE);
      if req.url in caches[RUNTIME_CACHE] {
        return Responded(caches[RUNTIME_CACHE][req.url]), 0;
      }
      fetches := 1;
      match net {
        case Threw =>
          reply := Rejected(FETCH_FAILED);
        case Resolved(r) =>
          if r.Ok() {
            Put(RUNTIME_CACHE, req.url, r);
          }
          reply := Responded(r);
      }
    }

    method NetworkFirst(req: Request, net: FetchOutcome) returns (reply: Reply, fetches: nat)
      modifies this
      ensures Step(reply, caches, fetches) == NetworkFirstStep(old(caches), req, net)
    {
      Open(RUNTIME_CACHE);
      fetches := 1;
      match net {
        case Resolved(r) =>
          if r.Ok() {
            Put(RUNTIME_CACHE, req.url, r);
          }
          reply := Responded(r);
        case Threw =>
          if req.url in caches[RUNTIME_CACHE] {
            reply := Responded(caches[RUNTIME_CACHE][req.url]);
          } else {
            reply := Rejected(NETWORK_FAILED);
          }
      }
    }

    /** The `fetch` listener: `respondWith` is `None` when the listener returns without answering. */
    method OnFetch(req: Request, net: FetchOutcome) returns (respondWith: Option<Reply>, fetches: nat)
      modifies this
      ensures Dispatched(respondWith, caches, fetches) == DispatchStep(old(caches), req, net, origin)
    {
      if ShouldBypassCache(req) {
        return None, 0;
      }
      var isSameOrigin := req.url.origin == origin;
      var isApi := isSameOrigin && IsPrefix(API_PREFIX, req.url.path);
      if req.navigate {
        var reply;
        reply, fetches := NetworkFirst(req, net);
        if reply.Rejected? {
          Open(SHELL_CACHE);
          var offline := ShellUrl(origin, OFFLINE_PATH);
          reply := Responded(if offline in caches[SHELL_CACHE] then caches[SHELL_CACHE][offline] else ERROR_RESPONSE);
        }
        return Some(reply), fetches;
      }
      if isApi {
        var reply;
        reply, fetches := NetworkFirst(req, net);
        return Some(reply), fetches;
      }
      if IsStaticAsset(req.destination) || isSameOrigin {
        var reply;
        reply, fetches := CacheFirst(req, net);
        return Some(reply), fetches;
      }
      return None, 0;
    }

    /** The install handler; `outcomes[i]` is the network's answer for `SHELL_ASSETS[i]`. */
    method OnInstall(outcomes: seq<FetchOutcome>) returns (ok: bool)
      requires |outcomes| == |SHELL_ASSETS|
      modifies this
      ensures (ok, caches) == InstallStep(old(caches), outcomes, origin)
    {
      Open(SHELL_CACHE);
      var entries := FetchAll(SHELL_ASSETS, outcomes, origin);
      if entries.None? {
        return false;
      }
      caches := caches[SHELL_CACHE := caches[SHELL_CACHE] + entries.value];
      ok := true;
    }

    /** The activate handler: delete every cache that is neither the current shell nor runtime cache. */
    method OnActivate()
      modifies this
      ensures caches == ActivateStep(old(caches))
    {
      caches := map k | k in caches && (k == SHELL_CACHE || k == RUNTIME_CACHE) :: caches[k];
    }
  }
}
