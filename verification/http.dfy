/** The boundary shared by the three SvelteKit hooks: the request as the
    hooks read it, the downstream response, the Redis token store, and the
    outcome of a caching decision. */
module Http {
  import opened Wrappers
  import opened CacheControl

  type Headers = map<string, string>

  const CacheControlHeader := "Cache-Control"
  const ETagHeader := "ETag"

  /** What a hook reads from a request: the method (`verb`), the full URL text, its
      pathname, the names present in its query string, whether an
      `Authorization` header is present, and `If-None-Match` (`None` when
      the header is missing, as `headers.get` returns `null`). */
  datatype Request = Request(
    verb: string,
    url: string,
    path: string,
    query: set<string>,
    authorization: bool,
    ifNoneMatch: Option<string>)

  /** A response: status, headers and body; `None` is a `null` body. */
  datatype Response = Response(status: int, headers: Headers, body: Option<string>)

  /** `new Response()`: status 200, no headers, no body. */
  const EmptyResponse := Response(200, map[], None)

  /** The `response` argument of `createCacheControlResponse`: absent, a
      response already produced, or a producer that yields one when called. */
  datatype Downstream = NoResponse | Ready(response: Response) | Producer(produces: Response)

  function Materialize(d: Downstream): Response {
    match d
    case NoResponse => EmptyResponse
    case Ready(r) => r
    case Producer(r) => r
  }

  /** The decision a hook takes for one request: leave the response alone,
      answer 304 with the given headers, or set the given headers on the
      downstream response. */
  datatype Outcome = PassThrough | NotModified(headers: Headers) | Decorate(headers: Headers)

  /** `headers.set(k, v)` for every entry: later values replace earlier ones. */
  function WithHeaders(resp: Response, hs: Headers): Response {
    resp.(headers := resp.headers + hs)
  }

  /** The response an outcome yields from the downstream response. */
  function Apply(out: Outcome, resp: Response): Response {
    match out
    case PassThrough => resp
    case NotModified(hs) => Response(304, hs, None)
    case Decorate(hs) => WithHeaders(resp, hs)
  }

  /** `noCacheSearchParams.every(p => !searchParams.has(p))` fails. */
  predicate Excluded(params: seq<string>, query: set<string>) {
    exists p :: p in params && p in query
  }

  /** `routes.some(route => new RegExp(route).test(text))`; the regular
      expression engine is the parameter `matches`. */
  predicate RouteMatches(routes: seq<string>, matches: (string, string) -> bool, text: string) {
    exists r :: r in routes && matches(r, text)
  }

  /** A Redis entry: the stored value and the expiry it was written with. */
  datatype Entry = Entry(value: string, ttl: nat)

  type Store = map<string, Entry>

  /** `options.etagCacheKey && redis.get(key)` followed by `if (etag)`: the
      token, when the key is non-empty and holds a non-empty value. */
  function EtagToken(store: Store, key: string): Option<string> {
    if key != "" && key in store && store[key].value != "" then Some(store[key].value) else None
  }

  /** The request presents the stored token: `requestEtag === etag`. */
  predicate Revalidates(store: Store, key: string, req: Request) {
    EtagToken(store, key).Some? && req.ifNoneMatch == EtagToken(store, key)
  }

  /** The headers a hook sets when it caches and sends no 304:
      `Cache-Control` always, carrying exactly the given directives, and
      `ETag` exactly when a token is stored under the key. */
  function HeaderMap(ds: seq<Directive>, key: string, store: Store): (hs: Headers)
    ensures hs.Keys <= {CacheControlHeader, ETagHeader}
    ensures CacheControlHeader in hs && Parse(hs[CacheControlHeader]) == Some(ds)
    ensures hs[CacheControlHeader] == Render(ds)
    ensures ETagHeader in hs <==> EtagToken(store, key).Some?
    ensures ETagHeader in hs ==> Some(hs[ETagHeader]) == EtagToken(store, key)
  {
    ParseRender(ds);
    var cc := map[CacheControlHeader := Render(ds)];
    match EtagToken(store, key)
    case Some(t) => cc[ETagHeader := t]
    case None => cc
  }
}
