/** How the Craft token rotation and the three hooks fit together, and
    where the three hook variants part ways. */
module Rotation {
  import opened Wrappers
  import opened Http
  import JsHandle
  import NpmHandle
  import RootHandle
  import CraftPlugin

  /** A save that rotates the token under `key` to a fresh non-empty value
      (a UUID is never empty) with a positive expiry. */
  predicate Rotated(settings: CraftPlugin.Settings, element: CraftPlugin.Element, uuid: string) {
    CraftPlugin.Rotates(settings, element) && settings.etagTTL > 0 && uuid != ""
  }

  /** After a rotation the store holds the new token, so a request that
      presents any other value no longer revalidates and one presenting
      the new value does. */
  lemma {:induction false} RotationReplacesToken(settings: CraftPlugin.Settings, element: CraftPlugin.Element,
                                                 store: Store, uuid: string, req: Request)
    requires Rotated(settings, element, uuid)
    ensures !CraftPlugin.Save(settings, element, store, uuid).raised
    ensures var s := CraftPlugin.Save(settings, element, store, uuid).store;
      && EtagToken(s, settings.etagCacheKey) == Some(uuid)
      && (Revalidates(s, settings.etagCacheKey, req) <==> req.ifNoneMatch == Some(uuid))
  {
    CraftPlugin.RotationWrites(settings, element, store, uuid);
  }

  /** js/index.ts after a rotation: a request presenting the old token gets
      no 304, and a decorated response carries the new `ETag`. */
  lemma JsOldTokenRefused(o: JsHandle.HeaderOptions, settings: CraftPlugin.Settings,
                          element: CraftPlugin.Element, store: Store, uuid: string, req: Request)
    requires Rotated(settings, element, uuid) && o.etagCacheKey == settings.etagCacheKey
    requires req.ifNoneMatch == EtagToken(store, settings.etagCacheKey) && req.ifNoneMatch != Some(uuid)
    ensures var s := CraftPlugin.Save(settings, element, store, uuid).store;
      var out := JsHandle.Decide(o, req, s);
      && !out.NotModified?
      && (out.Decorate? ==> ETagHeader in out.headers && out.headers[ETagHeader] == uuid)
  {
    RotationReplacesToken(settings, element, store, uuid, req);
  }

  /** npm/index.ts after a rotation: the same. */
  lemma NpmOldTokenRefused(o: NpmHandle.HeaderOptions, settings: CraftPlugin.Settings,
                           element: CraftPlugin.Element, store: Store, uuid: string, req: Request)
    requires Rotated(settings, element, uuid) && o.etagCacheKey == settings.etagCacheKey
    requires req.ifNoneMatch == EtagToken(store, settings.etagCacheKey) && req.ifNoneMatch != Some(uuid)
    ensures var s := CraftPlugin.Save(settings, element, store, uuid).store;
      var out := NpmHandle.Decide(o, req, s);
      && !out.NotModified?
      && (out.Decorate? ==> ETagHeader in out.headers && out.headers[ETagHeader] == uuid)
  {
    RotationReplacesToken(settings, element, store, uuid, req);
  }

  /** index.ts after a rotation: the same, once a key is configured (its
      default key is empty, so by default it never sees a token). */
  lemma RootOldTokenRefused(o: RootHandle.Options, settings: CraftPlugin.Settings,
                            element: CraftPlugin.Element, store: Store, uuid: string, req: Request,
                            status: int, matches: (string, string) -> bool)
    requires Rotated(settings, element, uuid) && o.etagCacheKey == settings.etagCacheKey
    requires req.ifNoneMatch == EtagToken(store, settings.etagCacheKey) && req.ifNoneMatch != Some(uuid)
    ensures var s := CraftPlugin.Save(settings, element, store, uuid).store;
      var out := RootHandle.Decide(o, req, s, status, matches);
      && !out.NotModified?
      && (out.Decorate? ==> ETagHeader in out.headers && out.headers[ETagHeader] == uuid)
  {
    RotationReplacesToken(settings, element, store, uuid, req);
  }

  /** After a rotation, a request presenting the new token gets a 304 from
      each hook whenever that hook applies to it. */
  lemma NewTokenRevalidates(settings: CraftPlugin.Settings, element: CraftPlugin.Element,
                            store: Store, uuid: string, req: Request,
                            jo: JsHandle.HeaderOptions, no: NpmHandle.HeaderOptions, ro: RootHandle.Options,
                            status: int, matches: (string, string) -> bool)
    requires Rotated(settings, element, uuid) && req.ifNoneMatch == Some(uuid)
    requires jo.etagCacheKey == no.etagCacheKey == ro.etagCacheKey == settings.etagCacheKey
    ensures var s := CraftPlugin.Save(settings, element, store, uuid).store;
      && (JsHandle.Applies(jo, req) ==> JsHandle.Decide(jo, req, s).NotModified?)
      && (NpmHandle.Applies(no, req) ==> NpmHandle.Decide(no, req, s).NotModified?)
      && (RootHandle.Eligible(ro, req, status, matches) ==> RootHandle.Decide(ro, req, s, status, matches).NotModified?)
  {
    RotationReplacesToken(settings, element, store, uuid, req);
  }

  /** The Craft plugin and the js and npm hooks share the default key; the
      root hook's default key is empty. */
  lemma DefaultKeys()
    ensures JsHandle.DefaultHeaderOptions.etagCacheKey == CraftPlugin.DefaultSettings.etagCacheKey
    ensures NpmHandle.DefaultHeaderOptions.etagCacheKey == CraftPlugin.DefaultSettings.etagCacheKey
    ensures forall production :: RootHandle.DefaultOptions(production).etagCacheKey == ""
  {
  }

  /** An authorized request presenting the stored token: the js hook answers
      304 (it keeps caching authorized requests, privately), the npm hook
      passes it through. */
  lemma AuthorizedDivergence(jo: JsHandle.HeaderOptions, no: NpmHandle.HeaderOptions, req: Request, store: Store)
    requires req.authorization && jo.enabled
    requires !Excluded(jo.noCacheSearchParams, req.query)
    requires Revalidates(store, jo.etagCacheKey, req)
    ensures JsHandle.Decide(jo, req, store).NotModified?
    ensures NpmHandle.Decide(no, req, store) == PassThrough
  {
  }

  /** The 304 of the js hook carries `Cache-Control` (and the `ETag`); those
      of the npm and root hooks carry no headers at all. */
  lemma NotModifiedHeaders(jo: JsHandle.HeaderOptions, no: NpmHandle.HeaderOptions, ro: RootHandle.Options,
                           req: Request, store: Store, status: int, matches: (string, string) -> bool)
    ensures JsHandle.Decide(jo, req, store).NotModified? ==>
      var hs := JsHandle.Decide(jo, req, store).headers;
      CacheControlHeader in hs && ETagHeader in hs && Some(hs[ETagHeader]) == req.ifNoneMatch
    ensures NpmHandle.Decide(no, req, store).NotModified? ==> NpmHandle.Decide(no, req, store).headers == map[]
    ensures RootHandle.Decide(ro, req, store, status, matches).NotModified? ==>
      RootHandle.Decide(ro, req, store, status, matches).headers == map[]
  {
  }
}
