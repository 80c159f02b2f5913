/** npm/index.ts: a flag-driven hook. `createCacheControlResponse` skips
    authorized requests, answers a matching token with a bare 304, and
    otherwise sets the flag-built `Cache-Control` (plus `ETag`) on whatever
    response it is given; `cacheControlHandle` resolves first and decorates
    only a 200 response to a listed method on a matching pathname. */
module NpmHandle {
  import opened Wrappers
  import opened CacheControl
  import opened Http
  import Samples

  /** `noCache` is part of the options but no code path reads it. */
  datatype HeaderOptions = HeaderOptions(
    enabled: bool,
    mustRevalidate: bool,
    maxAge: Option<nat>,
    sMaxAge: Option<nat>,
    public: bool,
    private: bool,
    noCache: bool,
    etagCacheKey: string,
    noCacheSearchParams: seq<string>)

  datatype HandleOptions = HandleOptions(header: HeaderOptions, routes: seq<string>, methods: seq<string>)

  const DefaultHeaderOptions :=
    HeaderOptions(true, false, Some(60), None, true, false, false, "cache-control-etag", ["preview"])

  const DefaultHandleOptions := HandleOptions(DefaultHeaderOptions, [".*"], ["GET"])

  /** `Partial<HeaderOptions>`: `None` is a key the caller left out. */
  datatype HeaderOverrides = HeaderOverrides(
    enabled: Option<bool>,
    mustRevalidate: Option<bool>,
    maxAge: Option<Option<nat>>,
    sMaxAge: Option<Option<nat>>,
    public: Option<bool>,
    private: Option<bool>,
    noCache: Option<bool>,
    etagCacheKey: Option<string>,
    noCacheSearchParams: Option<seq<string>>)

  const NoHeaderOverrides := HeaderOverrides(None, None, None, None, None, None, None, None, None)

  /** `{ ...DEFAULT_HEADER_OPTIONS, ...opt }`. */
  function ResolveHeader(opt: HeaderOverrides): HeaderOptions {
    var d := DefaultHeaderOptions;
    HeaderOptions(
      opt.enabled.GetOr(d.enabled),
      opt.mustRevalidate.GetOr(d.mustRevalidate),
      opt.maxAge.GetOr(d.maxAge),
      opt.sMaxAge.GetOr(d.sMaxAge),
      opt.public.GetOr(d.public),
      opt.private.GetOr(d.private),
      opt.noCache.GetOr(d.noCache),
      opt.etagCacheKey.GetOr(d.etagCacheKey),
      opt.noCacheSearchParams.GetOr(d.noCacheSearchParams))
  }

  function AsOverrides(o: HeaderOptions): HeaderOverrides {
    HeaderOverrides(Some(o.enabled), Some(o.mustRevalidate), Some(o.maxAge), Some(o.sMaxAge), Some(o.public),
                    Some(o.private), Some(o.noCache), Some(o.etagCacheKey), Some(o.noCacheSearchParams))
  }

  /** The handle's second merge inside `createCacheControlResponse` changes
      nothing, and merging nothing gives the defaults. */
  lemma RemergeIsIdentity(o: HeaderOptions)
    ensures ResolveHeader(AsOverrides(o)) == o
    ensures ResolveHeader(NoHeaderOverrides) == DefaultHeaderOptions
  {
  }

  /** `Partial<HandleOptions>`. */
  datatype HandleOverrides = HandleOverrides(
    header: HeaderOverrides,
    routes: Option<seq<string>>,
    methods: Option<seq<string>>)

  const NoHandleOverrides := HandleOverrides(NoHeaderOverrides, None, None)

  /** `{ ...DEFAULT_HANDLE_OPTIONS, ...opt }` in `cacheControlHandle`. */
  function ResolveHandle(opt: HandleOverrides): HandleOptions {
    HandleOptions(
      ResolveHeader(opt.header),
      opt.routes.GetOr(DefaultHandleOptions.routes),
      opt.methods.GetOr(DefaultHandleOptions.methods))
  }

  function AsHandleOverrides(o: HandleOptions): HandleOverrides {
    HandleOverrides(AsOverrides(o.header), Some(o.routes), Some(o.methods))
  }

  /** Merging no keys gives every route (`.*`) and only `GET`; merging a
      complete set of options gives those options back. */
  lemma HandleRemergeIsIdentity(o: HandleOptions)
    ensures ResolveHandle(AsHandleOverrides(o)) == o
    ensures ResolveHandle(NoHandleOverrides) == DefaultHandleOptions
    ensures DefaultHandleOptions.routes == [".*"] && DefaultHandleOptions.methods == ["GET"]
    ensures DefaultHandleOptions.header == DefaultHeaderOptions
  {
    RemergeIsIdentity(o.header);
  }

  /** The guarded parts of the `Cache-Control` array in
      `createCacheControlResponse`, before filtering. The `s-maxage`
      part is guarded by `sMaxAge` but interpolates `maxAge`. */
  function Parts(o: HeaderOptions): seq<Option<Directive>> {
    [ When(o.private, Private),
      When(o.public, Public),
      When(o.maxAge.Some?, MaxAge(o.maxAge)),
      When(o.sMaxAge.Some?, SMaxAge(o.maxAge)),
      When(o.mustRevalidate, MustRevalidate) ]
  }

  lemma PartsOrder(o: HeaderOptions)
    ensures PartsInOrder(Parts(o), CanonicalRank)
  {
  }

  lemma PartsFacts(o: HeaderOptions)
    ensures Some(Private) in Parts(o) <==> o.private
    ensures Some(Public) in Parts(o) <==> o.public
    ensures Some(MustRevalidate) in Parts(o) <==> o.mustRevalidate
    ensures Some(NoCache) !in Parts(o)
    ensures forall a :: Some(MaxAge(a)) in Parts(o) <==> o.maxAge.Some? && a == o.maxAge
    ensures forall a :: Some(SMaxAge(a)) in Parts(o) <==> o.sMaxAge.Some? && a == o.maxAge
  {
  }

  /** `parts.filter(Boolean)`. */
  function Directives(o: HeaderOptions): seq<Directive> {
    Keep(Parts(o))
  }

  /** Each flag contributes its directive, in the fixed order private,
      public, max-age, s-maxage, must-revalidate. `s-maxage` is present iff
      `sMaxAge` is set, and carries the `maxAge` value. */
  lemma DirectivesShape(o: HeaderOptions)
    ensures var ds := Directives(o);
      && InOrder(ds, CanonicalRank)
      && (Private in ds <==> o.private)
      && (Public in ds <==> o.public)
      && (MustRevalidate in ds <==> o.mustRevalidate)
      && NoCache !in ds
      && (forall a :: MaxAge(a) in ds <==> o.maxAge.Some? && a == o.maxAge)
      && (forall a :: SMaxAge(a) in ds <==> o.sMaxAge.Some? && a == o.maxAge)
  {
    PartsOrder(o);
    PartsFacts(o);
    KeepMembers(Parts(o));
    KeepInOrder(Parts(o), CanonicalRank);
  }

  /** Caching applies: no `Authorization` header and no excluding query name.
      `enabled` is not consulted here. */
  predicate Applies(o: HeaderOptions, req: Request) {
    !req.authorization && !Excluded(o.noCacheSearchParams, req.query)
  }

  /** The headers added when caching applies and no 304 is sent. */
  function CachingHeaders(o: HeaderOptions, store: Store): Headers {
    HeaderMap(Directives(o), o.etagCacheKey, store)
  }

  /** The header-building part of `createCacheControlResponse`: pass
      through for an authorized or excluded request; a
      304 with no headers when the request presents the stored token;
      otherwise `Cache-Control`, and `ETag` when a token is stored. */
  function Decide(o: HeaderOptions, req: Request, store: Store): (r: Outcome)
    ensures r.PassThrough? <==> !Applies(o, req)
    ensures r.NotModified? <==> Applies(o, req) && Revalidates(store, o.etagCacheKey, req)
    ensures r.NotModified? ==> r.headers == map[]
    ensures r.Decorate? ==> r.headers == CachingHeaders(o, store)
  {
    if !Applies(o, req) then PassThrough
    else if Revalidates(store, o.etagCacheKey, req) then NotModified(map[])
    else Decorate(CachingHeaders(o, store))
  }

  /** The response and whether the downstream producer was invoked. */
  datatype Produced = Produced(response: Response, producerCalled: bool)

  /** `createCacheControlResponse`: the downstream response is materialised
      only when no 304 is sent, and is decorated whatever its status. */
  function CreateResponse(o: HeaderOptions, req: Request, store: Store, downstream: Downstream): (r: Produced)
    ensures r.producerCalled <==> downstream.Producer? && !Decide(o, req, store).NotModified?
    ensures Decide(o, req, store).NotModified? ==> r.response == Response(304, map[], None)
    ensures !Decide(o, req, store).NotModified? ==>
      r.response.status == Materialize(downstream).status && r.response.body == Materialize(downstream).body
    ensures r.response != Materialize(downstream) ==> Applies(o, req)
    ensures Decide(o, req, store).Decorate? ==>
      r.response == WithHeaders(Materialize(downstream), CachingHeaders(o, store))
  {
    var out := Decide(o, req, store);
    if out.NotModified? then Produced(Response(304, map[], None), false)
    else Produced(Apply(out, Materialize(downstream)), downstream.Producer?)
  }

  /** `cacheControlHandle`: resolves first; a disabled handle, a non-200
      status, an unlisted method or an unmatched pathname returns the
      downstream response as it is. */
  function Handle(o: HandleOptions, req: Request, store: Store,
                  matches: (string, string) -> bool, downstream: Response): (r: Response)
    ensures (!o.header.enabled || downstream.status != 200 || req.verb !in o.methods
             || !RouteMatches(o.routes, matches, req.path)) ==> r == downstream
    ensures r != downstream ==>
      o.header.enabled && downstream.status == 200 && req.verb in o.methods
      && RouteMatches(o.routes, matches, req.path) && Applies(o.header, req)
    ensures r.status == 304 <==>
      (r != downstream && Revalidates(store, o.header.etagCacheKey, req)) || downstream.status == 304
  {
    if !o.header.enabled then downstream
    else if downstream.status == 200 && req.verb in o.methods && RouteMatches(o.routes, matches, req.path) then
      CreateResponse(ResolveHeader(AsOverrides(o.header)), req, store, Ready(downstream)).response
    else downstream
  }

  /** A request that is authorized or carries an excluding query name never
      depends on the store: the token is not read. */
  lemma NoTokenReadUnlessApplies(o: HeaderOptions, req: Request, s1: Store, s2: Store)
    requires !Applies(o, req)
    ensures Decide(o, req, s1) == Decide(o, req, s2) == PassThrough
  {
  }

  /** The defaults give exactly "public, max-age=60". */
  lemma DefaultHeader(store: Store)
    ensures CachingHeaders(ResolveHeader(NoHeaderOverrides), store)[CacheControlHeader] == "public, max-age=60"
  {
    assert ResolveHeader(NoHeaderOverrides) == DefaultHeaderOptions;
    DefaultRender();
  }

  lemma DefaultRender()
    ensures Render(Directives(DefaultHeaderOptions)) == "public, max-age=60"
  {
    var ps := [None, Some(Public), Some(MaxAge(Some(60))), None, None];
    assert Parts(DefaultHeaderOptions) == ps;
    assert Keep(ps) == [Public, MaxAge(Some(60))] by {
      KeepFive(None, Some(Public), Some(MaxAge(Some(60))), None, None);
    }
    Samples.PublicAge60();
  }

  /** With `sMaxAge` set, the `s-maxage` directive repeats `maxAge`. */
  lemma SharedAgeRendersMaxAge(o: HeaderOptions)
    requires o.public && !o.private && !o.mustRevalidate && o.sMaxAge == Some(300) && o.maxAge == Some(60)
    ensures Render(Directives(o)) == "public, max-age=60, s-maxage=60"
  {
    var ps := [None, Some(Public), Some(MaxAge(Some(60))), Some(SMaxAge(Some(60))), None];
    assert Parts(o) == ps;
    assert Keep(ps) == [Public, MaxAge(Some(60)), SMaxAge(Some(60))] by {
      KeepFive(None, Some(Public), Some(MaxAge(Some(60))), Some(SMaxAge(Some(60))), None);
    }
    Samples.PublicAge60Shared60();
  }

  /** With `sMaxAge` set and `maxAge` null, the header carries "s-maxage=null". */
  lemma SharedAgeRendersNull(o: HeaderOptions)
    requires o.public && !o.private && !o.mustRevalidate && o.sMaxAge == Some(300) && o.maxAge == None
    ensures Render(Directives(o)) == "public, s-maxage=null"
  {
    var ps := [None, Some(Public), None, Some(SMaxAge(None)), None];
    assert Parts(o) == ps;
    assert Keep(ps) == [Public, SMaxAge(None)] by {
      KeepFive(None, Some(Public), None, Some(SMaxAge(None)), None);
    }
    Samples.PublicSharedNull();
  }

  lemma HeadersIgnoreNoCache(h: HeaderOptions, flag: bool, store: Store)
    ensures CachingHeaders(h.(noCache := flag), store) == CachingHeaders(h, store)
  {
    assert Parts(h.(noCache := flag)) == Parts(h);
  }

  /** The `noCache` option has no effect on any response. */
  lemma NoCacheFlagIgnored(o: HandleOptions, req: Request, store: Store,
                           matches: (string, string) -> bool, downstream: Response, flag: bool)
    ensures var o' := o.(header := o.header.(noCache := flag));
      Handle(o', req, store, matches, downstream) == Handle(o, req, store, matches, downstream)
  {
    var o' := o.(header := o.header.(noCache := flag));
    RemergeIsIdentity(o.header);
    RemergeIsIdentity(o'.header);
    HeadersIgnoreNoCache(o.header, flag, store);
  }

  /** Called directly, `createCacheControlResponse` decorates a response
      even with `enabled` false and a non-200 status. */
  lemma DirectCallIgnoresEnabledAndStatus(o: HeaderOptions, req: Request, store: Store, resp: Response)
    requires !o.enabled && resp.status == 500 && Applies(o, req) && !Revalidates(store, o.etagCacheKey, req)
    ensures var r := CreateResponse(o, req, store, Ready(resp)).response;
      r.status == 500 && CacheControlHeader in r.headers
  {
  }

  /** With no options given, the handle leaves every method but `GET`
      alone, and turns a 200 response to a `GET` whose pathname matches
      `.*` into a 304 exactly when caching applies and the request presents
      the token stored under "cache-control-etag". */
  lemma DefaultHandleScope(req: Request, store: Store, matches: (string, string) -> bool, downstream: Response)
    ensures req.verb != "GET" ==> Handle(ResolveHandle(NoHandleOverrides), req, store, matches, downstream) == downstream
    ensures req.verb == "GET" && matches(".*", req.path) && downstream.status == 200 ==>
      (Handle(ResolveHandle(NoHandleOverrides), req, store, matches, downstream).status == 304 <==>
       Applies(DefaultHeaderOptions, req) && Revalidates(store, "cache-control-etag", req))
  {
    HandleRemergeIsIdentity(DefaultHandleOptions);
    assert RouteMatches([".*"], matches, req.path) <==> matches(".*", req.path) by {
      assert forall r :: r in [".*"] <==> r == ".*";
    }
  }
}
