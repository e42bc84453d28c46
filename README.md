# insta-gallery in Dafny

A model of insta-gallery, a Cloudflare Worker that shows a user's Instagram media
as a gallery. The worker keeps two stores:

- A KV namespace (`INSTA_GALLERY`) holds the OAuth state and the access token.
- An R2 bucket (`INSTA_BUCKET`) holds downloaded images, thumbnails and the manifest
  `gallery.json`.

The worker does the following:

- It runs the OAuth authorization-code flow of RFC 6749 (section 4.1) against
  Instagram on `/auth/`.
- On `/update` and on its timer it synchronises the bucket with the user's media
  feed. It deletes orphaned objects, downloads what is missing and writes the
  manifest.
- It renders the manifest as a grid on `/gallery`.

The project has these modules:

| module | file | contents |
|---|---|---|
| `Options` | options.dfy | `Option`, map lookup, JavaScript truthiness of a string that may be missing |
| `Strings` | strings.dfy | `String.prototype.split` on one character, its inverse `Join`, and their round trips |
| `Query` | query.dfy | Query strings: `URLSearchParams.get` (first match), raw `name=value&…` encoding as the worker's template strings write it, decoding, and their round trip |
| `Http` | http.dfy | Requests and responses, `getRedirectUri`, the router's path table |
| `Instagram` | insta.dfy | `InstagramAuth` from src/insta.ts: the authorize redirect, the callback parser, the token-request body, the long-lived exchange URL |
| `Gallery` | gallery.dfy | The sync as a function on the bucket: orphan filter, downloads, manifest, and the thumbnail rule of the gallery page |
| `Worker` | worker.dfy | The request handlers. `fetchAuth` is a state transition on the KV map. The class `Env` holds the secrets and both stores; its methods perform the store operations one at a time and are proved to reach the state the functions describe |

The outside world is a parameter (`Worker.Upstream`), made of these parts:

- the random OAuth state;
- the answers of the token endpoint and the Graph API;
- the fetched media feed;
- the bytes behind each media URL.

A bucket object is either downloaded bytes or the manifest, kept as its list of
entries.

## Model

| member | source | states |
|---|---|---|
| Strings.Split | src/index.ts:83 | Splitting on `-` yields at least one piece, and no piece holds the separator |
| Strings.JoinSplit | src/index.ts:83 | Joining the pieces of a split with the same separator gives back the key |
| Strings.SplitSingle | src/index.ts:83 | A key splits into exactly one piece iff it has no `-`, so `split('-')[1]` is undefined exactly then |
| Strings.SplitJoin | src/index.ts:83 | Splitting the join of separator-free pieces gives back those pieces |
| Query.GetFinds | src/index.ts:119 | `searchParams.get(name)` is missing iff no parameter has that name; otherwise it is the value of the first one that does |
| Query.GetFirst | src/insta.ts:58-59 | A parameter whose name occurs nowhere before it is the one `get` returns |
| Query.EncodeLast | src/insta.ts:46 | The raw query of a list is the query of all but its last parameter, then `&name=value` of the last |
| Query.DecodeEncode | src/insta.ts:46 | Reading back a raw-concatenated query gives back the parameters when no name or value holds `&`, `+` or `%` and no name holds `=` |
| Query.AmpersandCutsValue | src/insta.ts:46 | Without percent-encoding, a value holding `&` reads back truncated at the `&`: the first parameter read back is the name with only the part before the `&` |
| Http.NormalizePath | src/index.ts:15-19 | The path ends with `/`, is the original with `/` appended only when it did not end with one, and begins with the original path |
| Http.GetRedirectUri | src/index.ts:13-22 | The redirect URI is exactly `https://`, then the host, then the normalised path: its length is their sum, the original path follows the host, and it ends with `/` |
| Http.NormalizePathIdempotent | src/index.ts:17-21 | Normalising twice equals normalising once; an already-normalised path gives the same redirect URI |
| Http.RouteOf | src/index.ts:289-301 | A request goes to a handler exactly when its path is one of `/auth/`, `/gallery`, `/update`, `/`, and the handler's path equals the request's |
| Http.RouteOfPathOf | src/index.ts:291-300 | Each handler is reached by its own path and by no other |
| Instagram.InstagramAuth.StartAuth | src/insta.ts:42-51 | A 302 to the authorize endpoint; the `app_state` handed back is the state that ends the URL, after client id, redirect URI, scope and `response_type=code` in that order |
| Instagram.InstagramAuth.AuthorizeQueryReadsBack | src/insta.ts:46 | The authorize query reads back as exactly `client_id`, `redirect_uri`, `scope`, `response_type=code`, `state` in order, each with the value given |
| Instagram.InstagramAuth.ParseAuthStep2Params | src/insta.ts:57-69 | None when `code` or `state` is missing or empty; otherwise exactly the given code and state |
| Instagram.InstagramAuth.CallbackRoundTrip | src/insta.ts:57-69 | The callback query `code=…&state=…` parses to exactly that code and state |
| Instagram.InstagramAuth.AccessTokenBody | src/insta.ts:81-83 | The token body is the client id, secret, `grant_type=authorization_code` and redirect URI, then the code last, verbatim |
| Instagram.InstagramAuth.TokenRequestMatchesAuthorize | src/insta.ts:83 | The token body uses `grant_type=authorization_code`, carries the code, and names the same `client_id` and `redirect_uri` as the authorize URL |
| Instagram.InstagramAuth.LongLivedTokenUrl | src/insta.ts:107-108 | The exchange URL is on the v18.0 Graph URL and ends with the given short-lived token, verbatim |
| Instagram.InstagramAuth.ExchangeCarriesToken | src/insta.ts:108 | The exchange query asks for `ig_exchange_token` and carries exactly the given token |
| Gallery.Manifest | src/index.ts:63-74 | The manifest has the feed's length and order, and each element keeps the entry's id, caption, media type, timestamp and permalink |
| Gallery.ManifestIgnoresUrls | src/index.ts:64-73 | Media and thumbnail URLs do not reach the manifest |
| Gallery.MediaIdOf | src/index.ts:83 | A key has a media id iff it holds `-`, and that id holds no `-` |
| Gallery.Orphans | src/index.ts:77-86 | The keys to delete are stored keys, and `gallery.json` is never among them |
| Gallery.UndashedKeyIsOrphan | src/index.ts:79-85 | A key without `-`, other than `gallery.json`, is always deleted |
| Gallery.MediaIdOfPrefixed | src/index.ts:91-93 | `media-<id>` and `thumb-<id>` refer back to `<id>` when the id holds no `-` |
| Gallery.DashedIdNotRecognised | src/index.ts:83-84 | An id holding `-` is not recognised in its own `media-<id>` key |
| Gallery.WantedKeyNotOrphan | src/index.ts:90-95 | A key the downloads want is never an orphan of the same feed, given dash-free ids |
| Gallery.Download | src/index.ts:32-47 | An empty URL or an existing key leaves the bucket unchanged; otherwise exactly `name` is added, holding the fetched bytes |
| Gallery.DownloadEntryEffect | src/index.ts:90-95 | One entry's downloads keep every object, add exactly its missing wanted keys, and fill them with bytes fetched for that entry |
| Gallery.DownloadAllEffect | src/index.ts:90-97 | All downloads keep every existing object, add exactly the missing wanted keys, and fill each with bytes fetched for it |
| Gallery.DownloadAllPresent | src/index.ts:37-40 | When every wanted key is stored, the downloads change nothing |
| Gallery.Synced | src/index.ts:99 | After the sync `gallery.json` holds the manifest of the feed |
| Gallery.SyncedKeys | src/index.ts:77-99 | After the sync the keys are the non-orphans plus the wanted keys plus `gallery.json`; untouched objects keep their content; orphans not wanted again are gone |
| Gallery.SyncStoresMedia | src/index.ts:90-97 | After the sync `media-<id>` exists for each entry with a media URL, and `thumb-<id>` for each video with a thumbnail URL |
| Gallery.SyncInvariant | src/index.ts:77-99 | Given dash-free ids, a stored key is deleted iff it is an orphan, and afterwards every key but `gallery.json` refers to a listed id |
| Gallery.DownloadAllAgrees | src/index.ts:90-97 | The downloads decide each key on its own: a key that starts out the same in two buckets ends up the same |
| Gallery.SyncIdempotent | src/index.ts:54-100 | For every feed, syncing twice with the same feed and media bytes equals syncing once |
| Gallery.SecondSyncFetchesNothing | src/index.ts:77-97 | Given dash-free ids, a synced bucket holds no orphans, so the next sync deletes nothing and fetches nothing, whatever the media URLs now return |
| Gallery.ShownKey | src/index.ts:202 | The gallery shows `thumb-<id>` exactly for a video and `media-<id>` exactly for anything else |
| Worker.AuthTransition | src/index.ts:105-148 | One clause per branch, in the source's order: missing secrets give 500 with the KV store unchanged; a matching `config_key` redirects as `startAuth` does and stores the fresh state, changing nothing else; with neither a start nor a callback, a truthy `error` gives 401 and anything else 400, with the KV store unchanged. Overall only the three auth keys can change, the token changes only on a 200, and a 200 means the callback state matched the stored one, which is then removed |
| Worker.CallbackAccepted | src/index.ts:128-140 | Every callback that parses and carries the stored state gets 200; the state is removed and the long-lived token and user id obtained for its code are stored |
| Worker.InvalidStateRejected | src/index.ts:128-132 | A callback whose state is not the stored one, or when none is stored, gets 401 and writes nothing |
| Worker.NoReplay | src/index.ts:130-139 | After a successful callback, the same callback is refused with 401 |
| Worker.AuthorizationCodeFlow | src/index.ts:118-140 | Starting with the configuration key stores the fresh state and redirects with it. The callback with a code and that state then succeeds, removes the state, and stores the long-lived token and user id obtained for that code |
| Worker.Authenticated | src/index.ts:153-155 | The worker counts as authenticated exactly when a non-empty access token is stored |
| Worker.AuthWelcome | src/index.ts:157-185 | The welcome page is the setup form with status 200, warning that a token exists exactly when a non-empty one is stored |
| Worker.UpdateDecision | src/index.ts:242-262 | `updateForm` refuses iff unauthenticated; syncs iff the given key is the configured one; refuses a non-empty wrong key; shows the form iff no key (or an empty one) is given |
| Worker.RenderGallery | src/index.ts:192-204 | No `gallery.json` gives 404; a manifest gives 200 and one tile per entry, in order, linking the entry's permalink, showing `<base>/thumb-<id>` for a video and `<base>/media-<id>` otherwise, with the caption as alt text |
| Worker.RenderAfterSync | src/index.ts:199-204 | After a sync the page shows every fetched entry in order. Each tile links its permalink and shows `thumb-<id>` for a video, `media-<id>` otherwise; that object is stored whenever the entry had its URL |
| Worker.Env.constructor | src/index.ts:4-11 | The environment holds the given secrets and stores |
| Worker.Env.DownloadImage | src/index.ts:32-47 | The put-if-absent leaves the KV store alone and brings the bucket to `Download` of the old bucket |
| Worker.Env.FetchUserGallery | src/index.ts:54-100 | Without a token both stores stay unchanged. Otherwise the deletions, downloads and final put leave the bucket equal to `Synced` of the old bucket, and the KV store is not touched |
| Worker.Env.FetchAuth | src/index.ts:105-148 | The successive deletes and puts bring the KV store to the state `AuthTransition` gives, with its response; the bucket is untouched |
| Worker.Env.UpdateForm | src/index.ts:242-284 | The response follows `UpdateDecision`; only the sync branch changes the bucket, to `Synced`; the KV store is untouched |
| Worker.Env.Fetch | src/index.ts:287-302 | Each path goes to its handler with that handler's effect; an unknown path gives 404 and changes nothing |
| Worker.Env.Scheduled | src/index.ts:304-306 | The timer has the effect of `fetchUserGallery` |

## Left out

- Network and JSON: `fetch`, response decoding, request and response headers, and `content-type` metadata on stored objects are left out. The token endpoint, the Graph API, the media feed and the media bytes are inputs (`Worker.Upstream`).
- `InstagramGraphApi.fetchUserGallery` (src/insta.ts:170-177): its URL and the response decoding are left out, and the feed is an input. Paging of the feed is ignored, as it is in the source.
- `fetchCarousel` (src/insta.ts:182-189) is left out, because nothing calls it.
- Parallelism: the deletes and downloads run under `Promise.all` in the source. The model deletes the orphans one at a time in an arbitrary order, and the resulting bucket is proved the same for every order. It then downloads in feed order.
- Download failures, partial success and a `put` that throws are left out: each needed download succeeds.
- Token-exchange failures are left out: the token endpoint and the Graph API always answer. In the source, `auth-state` is deleted (src/index.ts:135) between the two exchanges (134, 136). If the long-lived exchange or a later `put` throws, the request fails with neither the state nor a token stored. The model has no such partial effect. The `Worker.AuthTransition` clause that error responses leave the KV store unchanged covers only the responses the model produces.
- URL handling by the platform is left out. `Response.redirect` (src/insta.ts:49) and `fetch` parse and re-serialise their URL: spaces are percent-encoded and a `#` starts a fragment. The model keeps the raw concatenated string.
- The state drawn with `Math.random().toString(36)` (src/insta.ts:43-44) is an input, because it is floating-point randomness.
- HTML text of `authWelcome`, `renderGallery` and `updateForm`: only the page kind, the "already authenticated" flag and the gallery tiles are modelled.
- The manifest is stored as its list of entries. Its JSON text is not modelled. A `gallery.json` that does not parse, on which the source throws, answers 500 in the model.
- R2 `list()` returns at most 1000 keys per call, and the source reads only the first page. The model deletes orphans from the complete key set.
- `URLSearchParams` percent-decoding and `+` to space are not modelled. Decoding splits on `&` and on the first `=`. That reading agrees with a real form reader only on strings without `+` and `%`. The read-back lemmas therefore require `Query.Plain`, which excludes `+` and `%` as well as `&` everywhere and `=` in names.
- Secrets are plain strings: an unset binding is modelled as the empty string, which the source's `!app_id` test treats like a missing one.
- Gallery.SyncInvariant: holds only for feeds whose ids hold no `-`. Instagram's ids are digits. `Gallery.DashedIdNotRecognised` shows why the premise is needed: `split('-')[1]` would not find such an id.
- Gallery.SecondSyncFetchesNothing: requires dash-free ids, for the same reason. With an id holding `-`, the source deletes `media-<id>` as an orphan and fetches it again on every sync. `Gallery.SyncIdempotent` still holds then, because the re-fetched bytes come from the same function.
- `example_renderer/gallery-loader.js` is not part of this model. Its image source uses the same thumbnail/media prefix rule as `Gallery.ShownKey`. What it does differently is left out:
  - it caps the items at the `gallery-max-items` attribute, 50 by default (lines 24-29, 36);
  - it links each item to `media-<id>` in the bucket, not to the permalink (line 41);
  - it builds the page with jQuery and a lightbox plugin.
- Token expiry, refresh and serialisation: src/index.ts and src/insta.ts contain none, so the model has none.
