/** php/src/Plugin.php: the Craft CMS `EVENT_AFTER_SAVE` handler that
    rotates the shared ETag token after a content save. The generated
    UUID is the parameter `uuid`; Redis is the key-to-entry store. */
module CraftPlugin {
  import opened Wrappers
  import opened Http

  /** The flags of the saved element the guard reads: whether it is a draft
      or a revision, and whether it is being propagated or resaved. */
  datatype Element = Element(draftOrRevision: bool, propagating: bool, resaving: bool)

  /** The plugin settings; `etagTTL` is a PHP `int` and may be negative. */
  datatype Settings = Settings(etagCacheKey: string, etagTTL: int)

  /** Defaults of `models/Settings`: the shared key and one year in seconds. */
  const DefaultSettings := Settings("cache-control-etag", 60 * 60 * 24 * 365)

  /** PHP truthiness of a string: everything but "" and "0". */
  predicate StringTruthy(s: string) {
    s != "" && s != "0"
  }

  /** PHP truthiness of an int. */
  predicate IntTruthy(n: int) {
    n != 0
  }

  /** The guard of the `EVENT_AFTER_SAVE` closure in `attachEventHandlers`. */
  predicate Rotates(settings: Settings, element: Element) {
    && !element.draftOrRevision
    && !element.propagating
    && !element.resaving
    && StringTruthy(settings.etagCacheKey)
    && IntTruthy(settings.etagTTL)
  }

  /** `SET key value EX ttl`. */
  datatype SetCommand = SetCommand(key: string, value: string, ttl: int)

  /** The handler's effect: the Redis command it issues, if any. */
  function AfterSave(settings: Settings, element: Element, uuid: string): (c: Option<SetCommand>)
    ensures c.Some? <==> Rotates(settings, element)
    ensures c.Some? ==> (c.value.key == settings.etagCacheKey && c.value.value == uuid
                         && c.value.ttl == settings.etagTTL)
    ensures c.Some? ==> c.value.key != "" && c.value.ttl != 0
  {
    if Rotates(settings, element) then Some(SetCommand(settings.etagCacheKey, uuid, settings.etagTTL))
    else None
  }

  /** What a save leaves behind: the store, and whether the handler raised
      (`executeCommand` turns a Redis error reply into an exception that
      the closure does not catch, so the save request fails). */
  datatype SaveResult = SaveResult(store: Store, raised: bool)

  /** Redis executing the command: a positive expiry overwrites the entry;
      a non-positive one gets the error reply `invalid expire time`, which
      leaves the store as it was and raises out of the handler. */
  function Execute(store: Store, c: Option<SetCommand>): (r: SaveResult)
    ensures r.raised <==> c.Some? && c.value.ttl <= 0
    ensures c.None? ==> r.store == store
    ensures c.Some? && c.value.ttl > 0 ==> r.store == store[c.value.key := Entry(c.value.value, c.value.ttl)]
    ensures c.Some? && c.value.ttl <= 0 ==> r.store == store
  {
    match c
    case None => SaveResult(store, false)
    case Some(SetCommand(k, v, t)) =>
      if t > 0 then SaveResult(store[k := Entry(v, t)], false) else SaveResult(store, true)
  }

  /** The outcome of a save. */
  function Save(settings: Settings, element: Element, store: Store, uuid: string): SaveResult {
    Execute(store, AfterSave(settings, element, uuid))
  }

  /** A draft or revision save, a propagating or resaving save, an empty
      or "0" key and a zero TTL each leave the store as it was, without
      an error. */
  lemma GuardsKeepStore(settings: Settings, element: Element, store: Store, uuid: string)
    requires element.draftOrRevision || element.propagating || element.resaving
      || settings.etagCacheKey in {"", "0"} || settings.etagTTL == 0
    ensures Save(settings, element, store, uuid) == SaveResult(store, false)
  {
  }

  /** When every guard holds and the TTL is positive, the entry at the key
      becomes the uuid value with the configured expiry, no other key
      changes, and the save succeeds. */
  lemma RotationWrites(settings: Settings, element: Element, store: Store, uuid: string)
    requires Rotates(settings, element) && settings.etagTTL > 0
    ensures var r := Save(settings, element, store, uuid);
      var s := r.store;
      && !r.raised
      && settings.etagCacheKey in s
      && s[settings.etagCacheKey] == Entry(uuid, settings.etagTTL)
      && s.Keys == store.Keys + {settings.etagCacheKey}
      && (forall k :: k in store && k != settings.etagCacheKey ==> s[k] == store[k])
  {
  }

  /** A negative TTL passes the PHP guard, but Redis refuses the command:
      the token is not rotated and the save request fails. */
  lemma NegativeTtlRaises(settings: Settings, element: Element, store: Store, uuid: string)
    requires !element.draftOrRevision && !element.propagating && !element.resaving
    requires StringTruthy(settings.etagCacheKey) && settings.etagTTL < 0
    ensures Rotates(settings, element)
    ensures Save(settings, element, store, uuid) == SaveResult(store, true)
  {
  }

  /** Whatever the inputs, a save touches at most the configured key. */
  lemma SaveFrame(settings: Settings, element: Element, store: Store, uuid: string, k: string)
    requires k != settings.etagCacheKey
    ensures var s := Save(settings, element, store, uuid).store;
      (k in s <==> k in store) && (k in store ==> s[k] == store[k])
  {
  }

  /** With the default settings, a plain save of a published element
      rotates the token read by the hooks under their default key. */
  lemma DefaultSaveRotates(element: Element, store: Store, uuid: string)
    requires !element.draftOrRevision && !element.propagating && !element.resaving
    requires uuid != ""
    ensures !Save(DefaultSettings, element, store, uuid).raised
    ensures EtagToken(Save(DefaultSettings, element, store, uuid).store, "cache-control-etag") == Some(uuid)
  {
  }
}
