/** js/index.ts: a strategy-driven hook. `createCacheControlResponse` picks
    the directives from one of four strategies, runs the ETag check (for
    every strategy) and decorates only a 200 response; `cacheControlHandle`
    gates on `enabled`, the method and the pathname routes. */
module JsHandle {
  import opened Wrappers
  import opened CacheControl
  import opened Http
  import Samples

  datatype Strategy = PrivateOnly | PrivateAndPublic | ForcePublic | NoCacheStrategy

  datatype HeaderOptions = HeaderOptions(
    enabled: bool,
    maxAge: Option<nat>,
    sMaxAge: Option<nat>,
    strategy: Strategy,
    etagCacheKey: string,
    noCacheSearchParams: seq<string>)

  datatype HandleOptions = HandleOptions(header: HeaderOptions, routes: seq<string>, methods: seq<string>)

  /** `Partial<HeaderOptions>`: `None` is a key the caller left out. */
  datatype HeaderOverrides = HeaderOverrides(
    enabled: Option<bool>,
    maxAge: Option<Option<nat>>,
    sMaxAge: Option<Option<nat>>,
    strategy: Option<Strategy>,
    etagCacheKey: Option<string>,
    noCacheSearchParams: Option<seq<string>>)

  datatype HandleOverrides = HandleOverrides(
    header: HeaderOverrides,
    routes: Option<seq<string>>,
    methods: Option<seq<string>>)

  const DefaultHeaderOptions := HeaderOptions(true, Some(60), None, PrivateAndPublic, "cache-control-etag", ["preview"])

  const DefaultHandleOptions := HandleOptions(DefaultHeaderOptions, [".*"], ["GET"])

  const NoHeaderOverrides := HeaderOverrides(None, None, None, None, None, None)

  /** `{ ...DEFAULT_HEADER_OPTIONS, ...opt }`. */
  function ResolveHeader(opt: HeaderOverrides): HeaderOptions {
    HeaderOptions(
      opt.enabled.GetOr(DefaultHeaderOptions.enabled),
      opt.maxAge.GetOr(DefaultHeaderOptions.maxAge),
      opt.sMaxAge.GetOr(DefaultHeaderOptions.sMaxAge),
      opt.strategy.GetOr(DefaultHeaderOptions.strategy),
      opt.etagCacheKey.GetOr(DefaultHeaderOptions.etagCacheKey),
      opt.noCacheSearchParams.GetOr(DefaultHeaderOptions.noCacheSearchParams))
  }

  /** `{ ...DEFAULT_HANDLE_OPTIONS, ...opt }`. */
  function ResolveHandle(opt: HandleOverrides): HandleOptions {
    HandleOptions(
      ResolveHeader(opt.header),
      opt.routes.GetOr(DefaultHandleOptions.routes),
      opt.methods.GetOr(DefaultHandleOptions.methods))
  }

  /** Resolved options passed back in as a partial object: every key present. */
  function AsOverrides(o: HeaderOptions): HeaderOverrides {
    HeaderOverrides(Some(o.enabled), Some(o.maxAge), Some(o.sMaxAge), Some(o.strategy),
                    Some(o.etagCacheKey), Some(o.noCacheSearchParams))
  }

  /** The handle hands its merged options to `createCacheControlResponse`,
      which merges them over the defaults again: that second merge changes
      nothing, and merging nothing gives the defaults. */
  lemma RemergeIsIdentity(o: HeaderOptions)
    ensures ResolveHeader(AsOverrides(o)) == o
    ensures ResolveHeader(NoHeaderOverrides) == DefaultHeaderOptions
  {
  }

  const NoHandleOverrides := HandleOverrides(NoHeaderOverrides, None, None)

  function AsHandleOverrides(o: HandleOptions): HandleOverrides {
    HandleOverrides(AsOverrides(o.header), Some(o.routes), Some(o.methods))
  }

  /** `cacheControlHandle` merges its options over `DEFAULT_HANDLE_OPTIONS`:
      merging no keys gives every route (`.*`) and only `GET`, and merging a
      complete set of options gives those options back. */
  lemma HandleRemergeIsIdentity(o: HandleOptions)
    ensures ResolveHandle(AsHandleOverrides(o)) == o
    ensures ResolveHandle(NoHandleOverrides) == DefaultHandleOptions
    ensures DefaultHandleOptions.routes == [".*"] && DefaultHandleOptions.methods == ["GET"]
    ensures DefaultHandleOptions.header == DefaultHeaderOptions
  {
    RemergeIsIdentity(o.header);
  }

  /** The guarded parts of the strategy branches of `createCacheControlResponse`,
      before filtering. */
  function Parts(o: HeaderOptions, authorized: bool): seq<Option<Directive>> {
    if o.strategy == PrivateOnly || (o.strategy == PrivateAndPublic && authorized) then
      [Some(Private), When(o.maxAge.Some?, MaxAge(o.maxAge))]
    else if o.strategy == PrivateAndPublic then
      [When(o.maxAge.Some?, MaxAge(o.maxAge)), When(o.sMaxAge.Some?, SMaxAge(o.sMaxAge))]
    else if o.strategy == ForcePublic then
      [Some(Public), When(o.maxAge.Some?, MaxAge(o.maxAge)), When(o.sMaxAge.Some?, SMaxAge(o.sMaxAge))]
    else
      [Some(NoCache)]
  }

  lemma PartsFacts(o: HeaderOptions, authorized: bool)
    ensures PartsInOrder(Parts(o, authorized), CanonicalRank)
    ensures Some(Private) in Parts(o, authorized) <==>
      o.strategy == PrivateOnly || (o.strategy == PrivateAndPublic && authorized)
    ensures Some(Public) in Parts(o, authorized) <==> o.strategy == ForcePublic
    ensures Some(NoCache) in Parts(o, authorized) <==> Parts(o, authorized) == [Some(NoCache)]
    ensures Some(NoCache) in Parts(o, authorized) <==> o.strategy == NoCacheStrategy
    ensures Some(MustRevalidate) !in Parts(o, authorized)
    ensures forall a :: Some(MaxAge(a)) in Parts(o, authorized) <==>
      o.strategy != NoCacheStrategy && o.maxAge.Some? && a == o.maxAge
    ensures forall a :: Some(SMaxAge(a)) in Parts(o, authorized) <==>
      (o.strategy == ForcePublic || (o.strategy == PrivateAndPublic && !authorized)) && o.sMaxAge.Some? && a == o.sMaxAge
  {
  }

  /** `parts.filter(Boolean)`: the directives of the strategy. */
  function Directives(o: HeaderOptions, authorized: bool): seq<Directive> {
    Keep(Parts(o, authorized))
  }

  /** `private` for private-only or for an authorized request under
      private-and-public; bare ages for other private-and-public requests;
      `public` first under force-public; exactly `no-cache` under no-cache.
      The order is canonical and a null age is left out, never rendered. */
  lemma DirectivesShape(o: HeaderOptions, authorized: bool)
    ensures var ds := Directives(o, authorized);
      && InOrder(ds, CanonicalRank) && NoNullAge(ds)
      && (Private in ds <==> o.strategy == PrivateOnly || (o.strategy == PrivateAndPublic && authorized))
      && (Public in ds <==> o.strategy == ForcePublic)
      && (NoCache in ds <==> ds == [NoCache])
      && (NoCache in ds <==> o.strategy == NoCacheStrategy)
      && MustRevalidate !in ds
      && (forall a :: MaxAge(a) in ds <==> o.strategy != NoCacheStrategy && o.maxAge.Some? && a == o.maxAge)
      && (forall a :: SMaxAge(a) in ds <==>
            (o.strategy == ForcePublic || (o.strategy == PrivateAndPublic && !authorized))
            && o.sMaxAge.Some? && a == o.sMaxAge)
  {
    var parts := Parts(o, authorized);
    PartsFacts(o, authorized);
    KeepMembers(parts);
    KeepInOrder(parts, CanonicalRank);
    KeepOne(Some(NoCache));
  }

  /** Caching applies to the request: `enabled` and no excluding query name. */
  predicate Applies(o: HeaderOptions, req: Request) {
    o.enabled && !Excluded(o.noCacheSearchParams, req.query)
  }

  /** The `headers` record once caching applies: `Cache-Control` always,
      `ETag` exactly when a token is stored under a non-empty key. */
  function CachingHeaders(o: HeaderOptions, req: Request, store: Store): Headers {
    HeaderMap(Directives(o, req.authorization), o.etagCacheKey, store)
  }

  /** The body of `createCacheControlResponse` up to the 304: pass through when caching
      does not apply; answer 304 with the computed headers when the request
      presents the stored token, whatever the strategy; decorate otherwise. */
  function Decide(o: HeaderOptions, req: Request, store: Store): (r: Outcome)
    ensures r.PassThrough? <==> !Applies(o, req)
    ensures r.NotModified? <==> Applies(o, req) && Revalidates(store, o.etagCacheKey, req)
    ensures !r.PassThrough? ==> r.headers == CachingHeaders(o, req, store)
  {
    if !Applies(o, req) then PassThrough
    else
      var hs := CachingHeaders(o, req, store);
      match EtagToken(store, o.etagCacheKey)
      case Some(t) => if req.ifNoneMatch == Some(t) then NotModified(hs) else Decorate(hs)
      case None => Decorate(hs)
  }

  /** The response and whether the downstream producer was invoked. */
  datatype Produced = Produced(response: Response, producerCalled: bool)

  /** `createCacheControlResponse`: a 304 never materialises the downstream
      response; otherwise only a 200 response gets the headers, any other
      status comes back untouched. */
  function CreateResponse(o: HeaderOptions, req: Request, store: Store, downstream: Downstream): (r: Produced)
    ensures r.producerCalled <==> downstream.Producer? && !Decide(o, req, store).NotModified?
    ensures r.response.status == 304 && r.response.body == None && r.response.headers == CachingHeaders(o, req, store)
      <== Decide(o, req, store).NotModified?
    ensures !Decide(o, req, store).NotModified? ==>
      r.response.status == Materialize(downstream).status && r.response.body == Materialize(downstream).body
    ensures r.response != Materialize(downstream) ==>
      Applies(o, req) && (Revalidates(store, o.etagCacheKey, req) || Materialize(downstream).status == 200)
    ensures Materialize(downstream).status == 200 && Decide(o, req, store).Decorate? ==>
      r.response == WithHeaders(Materialize(downstream), CachingHeaders(o, req, store))
  {
    var out := Decide(o, req, store);
    if out.NotModified? then Produced(Response(304, out.headers, None), false)
    else
      var resp := Materialize(downstream);
      if resp.status != 200 then Produced(resp, downstream.Producer?)
      else Produced(Apply(out, resp), downstream.Producer?)
  }

  /** `cacheControlHandle`: when disabled, or when the method is not listed
      or no route matches the pathname, the request is resolved unchanged;
      otherwise `createCacheControlResponse` runs with `resolve` as the
      producer, which is skipped only for a 304. */
  function Handle(o: HandleOptions, req: Request, store: Store,
                  matches: (string, string) -> bool, downstream: Response): (r: Produced)
    ensures !o.header.enabled || req.verb !in o.methods || !RouteMatches(o.routes, matches, req.path) ==>
      r == Produced(downstream, true)
    ensures r.response != downstream ==>
      Applies(o.header, req) && req.verb in o.methods && RouteMatches(o.routes, matches, req.path)
    ensures !r.producerCalled <==>
      Applies(o.header, req) && req.verb in o.methods && RouteMatches(o.routes, matches, req.path)
      && Revalidates(store, o.header.etagCacheKey, req)
  {
    if !o.header.enabled then Produced(downstream, true)
    else if req.verb in o.methods && RouteMatches(o.routes, matches, req.path) then
      CreateResponse(ResolveHeader(AsOverrides(o.header)), req, store, Producer(downstream))
    else Produced(downstream, true)
  }

  /** A request the hook does not apply to never depends on the store: the
      token is not read. */
  lemma NoTokenReadUnlessApplies(o: HandleOptions, req: Request, s1: Store, s2: Store,
                                 matches: (string, string) -> bool, downstream: Response)
    requires !Applies(o.header, req) || req.verb !in o.methods || !RouteMatches(o.routes, matches, req.path)
    ensures Handle(o, req, s1, matches, downstream) == Handle(o, req, s2, matches, downstream)
    ensures Handle(o, req, s1, matches, downstream) == Produced(downstream, true)
  {
  }

  /** With the defaults, an anonymous request gets exactly "max-age=60". */
  lemma DefaultHeader(req: Request, store: Store)
    requires !req.authorization
    ensures CachingHeaders(ResolveHeader(NoHeaderOverrides), req, store)[CacheControlHeader] == "max-age=60"
  {
    assert ResolveHeader(NoHeaderOverrides) == DefaultHeaderOptions;
    assert Parts(DefaultHeaderOptions, false) == [Some(MaxAge(Some(60))), None];
    KeepTwo(Some(MaxAge(Some(60))), None);
    Samples.Age60();
  }

  /** Force-public with both ages set renders visibility first, then the ages. */
  lemma ForcePublicHeader(o: HeaderOptions, authorized: bool)
    requires o.strategy == ForcePublic && o.maxAge == Some(120) && o.sMaxAge == Some(300)
    ensures Render(Directives(o, authorized)) == "public, max-age=120, s-maxage=300"
  {
    assert Parts(o, authorized) == [Some(Public), Some(MaxAge(Some(120))), Some(SMaxAge(Some(300)))];
    KeepThree(Some(Public), Some(MaxAge(Some(120))), Some(SMaxAge(Some(300))));
    Samples.PublicAge120Shared300();
  }

  /** An authorized request under private-and-public gets a private header
      with no shared-cache directive, and still a 304 on a matching token. */
  lemma AuthorizedIsPrivate(o: HeaderOptions, req: Request, store: Store)
    requires o.strategy == PrivateAndPublic && req.authorization && Applies(o, req)
    ensures var ds := Directives(o, true);
      Private in ds && Public !in ds && forall a :: SMaxAge(a) !in ds
    ensures Revalidates(store, o.etagCacheKey, req) ==> Decide(o, req, store).NotModified?
  {
    DirectivesShape(o, true);
  }

  /** Under no-cache the header is exactly "no-cache", and a matching token
      still yields a 304 carrying it. */
  lemma NoCacheStillRevalidates(o: HeaderOptions, req: Request, store: Store)
    requires o.strategy == NoCacheStrategy && Applies(o, req)
    ensures Render(Directives(o, req.authorization)) == "no-cache"
    ensures Revalidates(store, o.etagCacheKey, req) ==>
      Decide(o, req, store) == NotModified(CachingHeaders(o, req, store))
      && CachingHeaders(o, req, store)[CacheControlHeader] == "no-cache"
  {
    DirectivesShape(o, req.authorization);
  }

  /** With no options given, the handle leaves every method but `GET`
      alone, and answers a `GET` whose pathname matches `.*` with a 304,
      without calling `resolve`, exactly when caching applies and the
      request presents the token stored under "cache-control-etag". */
  lemma DefaultHandleScope(req: Request, store: Store, matches: (string, string) -> bool, downstream: Response)
    ensures req.verb != "GET" ==>
      Handle(ResolveHandle(NoHandleOverrides), req, store, matches, downstream) == Produced(downstream, true)
    ensures req.verb == "GET" && matches(".*", req.path) ==>
      (!Handle(ResolveHandle(NoHandleOverrides), req, store, matches, downstream).producerCalled <==>
       Applies(DefaultHeaderOptions, req) && Revalidates(store, "cache-control-etag", req))
  {
    HandleRemergeIsIdentity(DefaultHandleOptions);
    assert RouteMatches([".*"], matches, req.path) <==> matches(".*", req.path) by {
      assert forall r :: r in [".*"] <==> r == ".*";
    }
  }
}
