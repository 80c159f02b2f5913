# Cache-control hooks and ETag rotation, modelled in Dafny

The repository holds three versions of a SvelteKit server hook that decide,
for each request, whether a response is cacheable and which headers it
gets. The same version also decides whether the request's `If-None-Match`
matches a shared ETag token kept in Redis, and answers `304 Not Modified`
when it does. A fourth piece, a Craft CMS plugin, rotates that token
whenever content is saved, so that every cached page becomes stale at once.

The three hook versions are:

- `js/index.ts` chooses among four strategies: private-only,
  private-and-public (the default), force-public and no-cache.
  `createCacheControlResponse` applies the strategy, and `cacheControlHandle`
  wraps it.
- `npm/index.ts` uses boolean flags (`public`, `private`, `mustRevalidate`).
  It refuses to cache authorized requests.
- `index.ts` is the root-level hook. It builds the directives from the
  exclusive-or of `public` and `private`, and always puts `max-age` last.

The model is organised in these modules:

- `Wrappers`: `Option`.
- `Decimal`: plain decimal text of a whole number and its inverse. This is
  the text a template literal produces for a whole number below 10^21.
- `CacheControl`: the directive vocabulary; `filter(Boolean)` as `Keep`;
  `join(', ')` as `Render`, with its inverse `Parse`; directive order as
  `InOrder`.
- `Http`: requests, responses and header maps. It also holds the token
  store as a map from key to `Entry(value, ttl)`, the guards the hooks
  share, and the `Outcome` of a caching decision together with `Apply`.
- `JsHandle`, `NpmHandle` and `RootHandle`: the three hooks, each with its
  option merge, its directive list, its decision and its handle.
- `CraftPlugin`: the `EVENT_AFTER_SAVE` handler. It works as a transition
  on the store.
- `Rotation`: how a rotation reaches the hooks, and where the hooks
  disagree.
- `Samples`: literal renderings the scenario lemmas rely on.

Several behaviours of the code are modelled as written:

- **npm `s-maxage` repeats `maxAge`.** The npm hook writes
  `s-maxage=${options.maxAge}`. With `sMaxAge` set, the shared age therefore
  repeats `maxAge`. When `maxAge` is `null`, the header carries the text
  `s-maxage=null`. Ages are `Option<nat>` so that this rendering can be
  stated.
- **npm `noCache` is never read.** The npm `noCache` option has no effect.
- **Root comments disagree with the code.** In `index.ts`, the interface
  comments give `maxAge` default 0 and `routes` default `['*']`. The
  defaults object sets 60 and `['*.']`, and the model follows the defaults
  object.

Equality is JavaScript's strict `===` on the raw header text.
Truthiness follows each language:

- In JavaScript, an empty key or token is falsy.
- In PHP, `""` and `"0"` are falsy strings and `0` is a falsy integer.

## Model

| member | source | states |
|---|---|---|
| Decimal.ToNatFromNat | js/index.ts:98 | for ages below 10^21, the decimal text a template literal gives an age reads back as exactly that age, so distinct ages render distinctly |
| CacheControl.ParseAgeRoundTrip | npm/index.ts:101-102 | an interpolated age below 10^21, or JavaScript `null` rendered as "null", is recovered from its text |
| CacheControl.ParseRender | js/index.ts:87-88 | a comma-joined directive list parses back to the same list: the header text determines the directives and their order |
| CacheControl.KeepMembers | js/index.ts:87-88 | `filter(Boolean)` keeps exactly the truthy parts: a directive survives iff some part produced it |
| CacheControl.KeepInOrder | npm/index.ts:98-106 | filtering preserves the order of the parts, so directives listed in rank order stay in rank order |
| CacheControl.RenderCons | js/index.ts:87-88 | joining puts ", " between the first directive and the rest and nowhere else |
| JsHandle.RemergeIsIdentity | js/index.ts:70-73 | merging the handle's already-merged options over the defaults again changes nothing; merging no keys gives the defaults |
| JsHandle.HandleRemergeIsIdentity | js/index.ts:159-162 | the handle merge with no keys gives routes `.*` and methods `GET` over the header defaults; merging a complete set of options returns them |
| JsHandle.DirectivesShape | js/index.ts:90-119 | per strategy: private iff private-only or an authorized request under private-and-public; public iff force-public; exactly no-cache under no-cache; a null age never appears; canonical order |
| Http.HeaderMap | js/index.ts:96-125 | the header map holds Cache-Control, whose text parses back to exactly the directives it was built from, and ETag exactly when a non-empty token is stored under a non-empty key, carrying that token |
| JsHandle.Decide | js/index.ts:77-137 | nothing changes unless enabled and no excluding query name is present; a 304 iff the request presents the stored token, and the 304 carries the computed headers |
| JsHandle.CreateResponse | js/index.ts:140-152 | a 304 never calls the producer; otherwise status and body are the downstream ones, and only a 200 response gets the headers |
| JsHandle.Handle | js/index.ts:164-186 | disabled, unlisted method or unmatched pathname: the resolved response, unchanged; the producer is skipped only for a 304 |
| JsHandle.NoTokenReadUnlessApplies | js/index.ts:77-86 | when caching does not apply, the outcome is independent of the token store |
| JsHandle.DefaultHeader | js/index.ts:30-37 | the defaults give an anonymous request exactly "max-age=60" |
| JsHandle.ForcePublicHeader | js/index.ts:109-114 | force-public with both ages renders "public, max-age=120, s-maxage=300" |
| JsHandle.AuthorizedIsPrivate | js/index.ts:91-100 | an authorized request under private-and-public is private with no shared age, and still revalidates |
| JsHandle.NoCacheStillRevalidates | js/index.ts:116-134 | under no-cache the header is exactly "no-cache", and a matching token still gives a 304 carrying it |
| JsHandle.DefaultHandleScope | js/index.ts:155-186 | with no options, a non-GET request resolves unchanged, and a GET on a matching pathname skips `resolve` iff caching applies and the stored token is presented |
| NpmHandle.RemergeIsIdentity | npm/index.ts:65-68 | re-merging the handle's merged options over the defaults changes nothing; no keys gives the defaults |
| NpmHandle.HandleRemergeIsIdentity | npm/index.ts:122-125 | the handle merge with no keys gives routes `.*` and methods `GET` over the header defaults; merging a complete set of options returns them |
| NpmHandle.DirectivesShape | npm/index.ts:98-106 | each directive appears iff its flag or age is set; s-maxage carries maxAge, not sMaxAge; canonical order |
| NpmHandle.Decide | npm/index.ts:74-107 | authorized or excluded requests pass through; a 304 with no headers iff the stored token is presented |
| NpmHandle.CreateResponse | npm/index.ts:109-115 | a 304 never calls the producer; otherwise the response of any status gets the headers and keeps status and body |
| NpmHandle.Handle | npm/index.ts:127-152 | disabled, non-200, unlisted method or unmatched pathname: unchanged; any change implies every guard held; a 304 status iff a revalidation or a downstream 304 |
| NpmHandle.NoTokenReadUnlessApplies | npm/index.ts:76-81 | an authorized or excluded request never depends on the token store |
| NpmHandle.DefaultHeader | npm/index.ts:22-32 | the defaults give exactly "public, max-age=60" |
| NpmHandle.SharedAgeRendersMaxAge | npm/index.ts:102 | with sMaxAge 300 and maxAge 60 the header is "public, max-age=60, s-maxage=60" |
| NpmHandle.SharedAgeRendersNull | npm/index.ts:101-102 | with sMaxAge set and maxAge null the header is "public, s-maxage=null" |
| NpmHandle.NoCacheFlagIgnored | npm/index.ts:5-15 | changing `noCache` never changes a handled response |
| NpmHandle.DirectCallIgnoresEnabledAndStatus | npm/index.ts:59-116 | a direct call decorates even a disabled, status-500 response |
| NpmHandle.DefaultHandleScope | npm/index.ts:118-153 | with no options, a non-GET request is left alone, and a 200 response to a GET on a matching pathname becomes a 304 iff caching applies and the stored token is presented |
| RootHandle.RemergeIsIdentity | index.ts:34-37 | merging no keys gives the defaults with `enabled` equal to the build flag; merging a complete set of options returns them |
| RootHandle.DirectivesShape | index.ts:65-75 | private iff only private is set, public iff only public is set, must-revalidate iff set, max-age always and last |
| RootHandle.Decide | index.ts:53-94 | pass through iff some guard fails; a bare 304 iff eligible and the stored token is presented |
| RootHandle.Handle | index.ts:50-94 | ineligible responses are returned unchanged; eligible ones become a bare 304 or keep status and body and gain the headers |
| RootHandle.DefaultKeyReadsNoToken | index.ts:18-28 | with the default empty key the response never depends on the store and never gets an ETag |
| RootHandle.ZeroMaxAgeDisables | index.ts:53-64 | a maxAge of 0 leaves every response unchanged |
| RootHandle.DefaultHeader | index.ts:18-28 | the defaults give exactly "must-revalidate, max-age=60" |
| CraftPlugin.AfterSave | php/src/Plugin.php:63-75 | a SET is issued iff the element is no draft or revision, not propagating or resaving, the key is truthy and the TTL non-zero; it writes the UUID under the key with the TTL |
| CraftPlugin.Execute | php/src/Plugin.php:70-75 | no command or a refused expiry leaves the store alone, and the refusal, and only it, raises; otherwise only the key's entry is overwritten |
| CraftPlugin.GuardsKeepStore | php/src/Plugin.php:63-68 | drafts, revisions, propagating or resaving saves, an empty or "0" key and a zero TTL never change the store and never raise |
| CraftPlugin.NegativeTtlRaises | php/src/Plugin.php:63-75 | a negative TTL passes the guard, yet the token is not rotated and the save raises |
| CraftPlugin.RotationWrites | php/src/Plugin.php:69-75 | when every guard holds and the TTL is positive, the save succeeds, the key maps to the fresh value and TTL, and no other key changes |
| CraftPlugin.SaveFrame | php/src/Plugin.php:70-75 | a save never touches a key other than the configured one |
| CraftPlugin.DefaultSaveRotates | composer/src/models/Settings.php:13-14 | with default settings a plain save puts the fresh token under "cache-control-etag" |
| Rotation.RotationReplacesToken | php/src/Plugin.php:70-75 | after a rotation the stored token is the new value, and a request revalidates iff it presents that value |
| Rotation.JsOldTokenRefused | js/index.ts:121-134 | after a rotation the old token gets no 304 from the js hook, and a decorated response carries the new ETag |
| Rotation.NpmOldTokenRefused | npm/index.ts:82-95 | the same for the npm hook |
| Rotation.RootOldTokenRefused | index.ts:77-90 | the same for the root hook once its key matches the plugin's |
| Rotation.NewTokenRevalidates | php/src/Plugin.php:70-75 | after a rotation a request presenting the new token gets a 304 from each hook that applies to it |
| Rotation.DefaultKeys | js/index.ts:35 | the plugin and the js and npm hooks share the default key; the root hook's default key is empty |
| Rotation.AuthorizedDivergence | npm/index.ts:76-81 | an authorized request presenting the token gets a 304 from the js hook but passes through the npm hook |
| Rotation.NotModifiedHeaders | js/index.ts:129-133 | the js 304 carries Cache-Control and the ETag; the npm and root 304s carry no headers |

## Left out

- Redis I/O and connection handling are not modelled: the connection, its `error`/`connect` listeners, Sentry reporting and the lazy `initRedis`. The store is a value passed in, and a missing connection is not modelled.
- Asynchrony is not modelled; `await` is sequential evaluation.
- Regular expressions are not modelled. `new RegExp(route).test(text)` is the parameter `matches`. Because of this, the root hook's default route `'*.'`, which is not a valid pattern and throws when compiled, is not modelled either.
- URL parsing is not modelled. A request carries its full URL text, its pathname and the set of query names present.
- Header names are compared case-sensitively. `Headers.set` case folding is left out, so `ETag` and `Cache-Control` are the exact keys.
- Ages are `nat`: negative, fractional and non-finite JavaScript numbers are not modelled.
- Decimal.ToNatFromNat: the round trip is about plain digits. From 10^21 up, JavaScript renders a number in exponent form ("1e+21"), which the model never produces; the model matches JavaScript's text below 10^21 only.
- CacheControl.ParseAgeRoundTrip: an age of 10^21 or more renders as plain digits in the model but in exponent form in JavaScript; the round trip matches the hooks' text only below 10^21.
- Override keys that are present but `undefined` are not modelled. An override is either absent or a value.
- Expiry by time is not modelled. An entry records its TTL but never disappears.
- CraftPlugin.Execute: Redis refusing a non-positive `EX` is Redis behaviour, not the plugin's. A negative `etagTTL` passes the PHP guard. The model then leaves the store unchanged and sets `raised`, standing for the `yii\redis\Exception` that escapes the handler. What the failed save request does after that is not modelled.
- `StringHelper::UUID()` is not modelled; the fresh token is the parameter `uuid`.
- The Craft framework is not modelled: event registration, `init`, `config`, `createSettingsModel`, `settingsHtml` and the Twig template.
- The Yii validation rules of the settings model are not modelled. Only its default values are used.
- The root hook's `dev` flag is the parameter `production` of `RootHandle.DefaultOptions`.
- The root hook's `maxAge &&` guard is modelled as "non-zero"; `NaN` is not modelled.
- `statusText` is not modelled.
- The lint configuration in `js/eslint.config.mjs` is not modelled.
