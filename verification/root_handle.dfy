/** index.ts: the root-level hook. It resolves first and changes the response
    only when every guard holds (enabled, non-zero `maxAge`, listed method,
    status 200, a route matching the full URL, no excluding query name);
    visibility is the exclusive-or of the `public` and `private` flags and
    `max-age` is always last. */
module RootHandle {
  import opened Wrappers
  import opened CacheControl
  import opened Http
  import Samples

  datatype Options = Options(
    enabled: bool,
    mustRevalidate: bool,
    maxAge: nat,
    public: bool,
    private: bool,
    routes: seq<string>,
    methods: seq<string>,
    noCacheSearchParams: seq<string>,
    etagCacheKey: string)

  /** `DEFAULT_OPTIONS`; `enabled` defaults to `!dev`, a build flag taken as
      the parameter `production`. */
  function DefaultOptions(production: bool): Options {
    Options(production, true, 60, true, true, ["*."], ["GET"], ["preview"], "")
  }

  /** `Partial<Options>`: `None` is a key the caller left out. */
  datatype Overrides = Overrides(
    enabled: Option<bool>,
    mustRevalidate: Option<bool>,
    maxAge: Option<nat>,
    public: Option<bool>,
    private: Option<bool>,
    routes: Option<seq<string>>,
    methods: Option<seq<string>>,
    noCacheSearchParams: Option<seq<string>>,
    etagCacheKey: Option<string>)

  const NoOverrides := Overrides(None, None, None, None, None, None, None, None, None)

  /** `{ ...DEFAULT_OPTIONS, ...opt }`. */
  function Resolve(production: bool, opt: Overrides): Options {
    var d := DefaultOptions(production);
    Options(
      opt.enabled.GetOr(d.enabled),
      opt.mustRevalidate.GetOr(d.mustRevalidate),
      opt.maxAge.GetOr(d.maxAge),
      opt.public.GetOr(d.public),
      opt.private.GetOr(d.private),
      opt.routes.GetOr(d.routes),
      opt.methods.GetOr(d.methods),
      opt.noCacheSearchParams.GetOr(d.noCacheSearchParams),
      opt.etagCacheKey.GetOr(d.etagCacheKey))
  }

  function AsOverrides(o: Options): Overrides {
    Overrides(Some(o.enabled), Some(o.mustRevalidate), Some(o.maxAge), Some(o.public), Some(o.private),
              Some(o.routes), Some(o.methods), Some(o.noCacheSearchParams), Some(o.etagCacheKey))
  }

  /** Merging no keys gives the defaults, whose `enabled` is the build's
      `!dev`; merging a complete set of options gives them back, whatever
      the build. */
  lemma RemergeIsIdentity(production: bool, o: Options)
    ensures Resolve(production, AsOverrides(o)) == o
    ensures Resolve(production, NoOverrides) == DefaultOptions(production)
    ensures Resolve(production, NoOverrides).enabled == production
  {
  }

  /** Visibility, then `must-revalidate`, then `max-age`. */
  function RootRank(d: Directive): nat {
    match d
    case Private => 0
    case Public => 1
    case MustRevalidate => 2
    case MaxAge(_) => 3
    case SMaxAge(_) => 4
    case NoCache => 5
  }

  /** The guarded parts of the `Cache-Control` array, before filtering. */
  function Parts(o: Options): seq<Option<Directive>> {
    [ When(!o.public && o.private, Private),
      When(o.public && !o.private, Public),
      When(o.mustRevalidate, MustRevalidate),
      Some(MaxAge(Some(o.maxAge))) ]
  }

  lemma PartsFacts(o: Options)
    ensures PartsInOrder(Parts(o), RootRank)
    ensures Some(Private) in Parts(o) <==> o.private && !o.public
    ensures Some(Public) in Parts(o) <==> o.public && !o.private
    ensures Some(MustRevalidate) in Parts(o) <==> o.mustRevalidate
    ensures Some(NoCache) !in Parts(o)
    ensures forall a :: Some(MaxAge(a)) in Parts(o) <==> a == Some(o.maxAge)
    ensures forall a :: Some(SMaxAge(a)) !in Parts(o)
  {
  }

  /** `parts.filter(Boolean)`. */
  function Directives(o: Options): seq<Directive> {
    Keep(Parts(o))
  }

  /** `private` iff only `private` is set, `public` iff only `public` is
      set (both or neither: no visibility token), then `must-revalidate`
      when set, and `max-age=N` always, as the last directive. */
  lemma DirectivesShape(o: Options)
    ensures var ds := Directives(o);
      && InOrder(ds, RootRank)
      && (Private in ds <==> o.private && !o.public)
      && (Public in ds <==> o.public && !o.private)
      && (MustRevalidate in ds <==> o.mustRevalidate)
      && NoCache !in ds
      && (forall a :: MaxAge(a) in ds <==> a == Some(o.maxAge))
      && (forall a :: SMaxAge(a) !in ds)
      && |ds| > 0 && ds[|ds| - 1] == MaxAge(Some(o.maxAge))
  {
    var ps := Parts(o);
    PartsFacts(o);
    KeepMembers(ps);
    KeepInOrder(ps, RootRank);
    KeepFour(ps[0], ps[1], ps[2], ps[3]);
    assert ps == [ps[0], ps[1], ps[2], ps[3]];
  }

  /** The combined guard of the `if` around the header code. */
  predicate Eligible(o: Options, req: Request, status: int, matches: (string, string) -> bool) {
    && o.enabled
    && o.maxAge != 0
    && req.verb in o.methods
    && status == 200
    && RouteMatches(o.routes, matches, req.url)
    && !Excluded(o.noCacheSearchParams, req.query)
  }

  /** The headers set on an eligible response when no 304 is sent. */
  function CachingHeaders(o: Options, store: Store): Headers {
    HeaderMap(Directives(o), o.etagCacheKey, store)
  }

  /** The returned handle after `resolve`: pass through unless eligible; a
      fresh 304 with no headers when the request presents the stored token;
      otherwise the headers. */
  function Decide(o: Options, req: Request, store: Store, status: int,
                  matches: (string, string) -> bool): (r: Outcome)
    ensures r.PassThrough? <==> !Eligible(o, req, status, matches)
    ensures r.NotModified? <==> Eligible(o, req, status, matches) && Revalidates(store, o.etagCacheKey, req)
    ensures r.NotModified? ==> r.headers == map[]
    ensures r.Decorate? ==> r.headers == CachingHeaders(o, store)
  {
    if !Eligible(o, req, status, matches) then PassThrough
    else if Revalidates(store, o.etagCacheKey, req) then NotModified(map[])
    else Decorate(CachingHeaders(o, store))
  }

  /** The handle: the resolved response is returned unchanged unless every
      guard holds; an eligible response either becomes a bare 304 or keeps
      its status and body and gains the caching headers. */
  function Handle(o: Options, req: Request, store: Store,
                  matches: (string, string) -> bool, downstream: Response): (r: Response)
    ensures !Eligible(o, req, downstream.status, matches) ==> r == downstream
    ensures Eligible(o, req, downstream.status, matches) && Revalidates(store, o.etagCacheKey, req) ==>
      r == Response(304, map[], None)
    ensures Eligible(o, req, downstream.status, matches) && !Revalidates(store, o.etagCacheKey, req) ==>
      r.status == 200 && r.body == downstream.body && r.headers == downstream.headers + CachingHeaders(o, store)
  {
    Apply(Decide(o, req, store, downstream.status, matches), downstream)
  }

  /** The default `etagCacheKey` is empty: no token is read and no `ETag`
      is ever set unless a key is configured. */
  lemma DefaultKeyReadsNoToken(production: bool, req: Request, s1: Store, s2: Store,
                               matches: (string, string) -> bool, downstream: Response)
    ensures var o := Resolve(production, NoOverrides);
      Handle(o, req, s1, matches, downstream) == Handle(o, req, s2, matches, downstream)
      && ETagHeader !in CachingHeaders(o, s1)
  {
  }

  /** A maxAge of 0 switches the hook off: `options.maxAge &&` is falsy. */
  lemma ZeroMaxAgeDisables(o: Options, req: Request, store: Store,
                           matches: (string, string) -> bool, downstream: Response)
    requires o.maxAge == 0
    ensures Handle(o, req, store, matches, downstream) == downstream
  {
  }

  /** The defaults give exactly "must-revalidate, max-age=60": both
      visibility flags are set, so neither token is emitted. */
  lemma DefaultHeader(production: bool, store: Store)
    ensures CachingHeaders(Resolve(production, NoOverrides), store)[CacheControlHeader] == "must-revalidate, max-age=60"
  {
    assert Resolve(production, NoOverrides) == DefaultOptions(production);
    DefaultRender(production);
  }

  lemma DefaultRender(production: bool)
    ensures Render(Directives(DefaultOptions(production))) == "must-revalidate, max-age=60"
  {
    var ps := [None, None, Some(MustRevalidate), Some(MaxAge(Some(60)))];
    assert Parts(DefaultOptions(production)) == ps;
    assert Keep(ps) == [MustRevalidate, MaxAge(Some(60))] by {
      KeepFour(None, None, Some(MustRevalidate), Some(MaxAge(Some(60))));
    }
    Samples.MustRevalidateAge60();
  }
}
