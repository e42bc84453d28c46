/**
 * The Cloudflare Worker of src/index.ts: its two stores, the KV namespace
 * (`INSTA_GALLERY`, key to string) and the R2 bucket (`INSTA_BUCKET`, key to
 * object), and the handlers that read and change them. Everything the worker asks
 * of the outside world during a request is an `Upstream` value.
 */
module Worker {
  import opened Options
  import opened Query
  import opened Http
  import opened Instagram
  import opened Gallery

  type Kv = map<string, string>

  const TokenKey: string := "instagram-access-token"
  const UserIdKey: string := "instagram-user-id"
  const AuthStateKey: string := "auth-state"
  const AuthScope: string := "user_profile,user_media"

  /** The secrets and settings of the environment; an unset one is the empty string. */
  datatype Secrets = Secrets(appId: string, appSecret: string, configKey: string, bucketBase: string)

  predicate KeysSet(s: Secrets)
  {
    s.appId != "" && s.appSecret != "" && s.configKey != ""
  }

  /**
   * The answers of the outside world: the random state `startAuth` draws, the token
   * endpoint's answer to a posted body, the Graph API's answer to the long-lived
   * exchange URL, the media list of `/me/media`, and the bytes behind a media URL.
   */
  datatype Upstream = Upstream(
    freshState: string,
    tokenEndpoint: string -> AccessTokenResponse,
    graphEndpoint: string -> AccessTokenResponse,
    feed: seq<MediaEntry>,
    fetch: string -> Bytes)

  /** `isAuthenticated`: an access token is stored and is not empty. */
  predicate Authenticated(kv: Kv)
    ensures Authenticated(kv) <==> TokenKey in kv && kv[TokenKey] != ""
  {
    Truthy(Find(kv, TokenKey))
  }

  datatype AuthOutcome = AuthOutcome(response: Response, kv: Kv)

  /** The client `fetchAuth` builds: its redirect URI is the request's own URL. */
  function ClientFor(s: Secrets, req: Request): InstagramAuth
  {
    InstagramAuth(s.appId, GetRedirectUri(req), s.appSecret)
  }

  /**
   * `fetchAuth`: missing secrets give 500; a matching `config_key` starts the flow
   * and stores a fresh state; otherwise a callback with code and state is accepted
   * only when the state equals the stored one, which it then consumes; otherwise
   * `error` gives 401 and anything else 400.
   */
  function AuthTransition(s: Secrets, req: Request, kv: Kv, up: Upstream): (o: AuthOutcome)
    ensures !KeysSet(s) ==> o == AuthOutcome(Response(500, Text("Keys are not set up")), kv)
    ensures KeysSet(s) && Get(req.query, "config_key") == Some(s.configKey) ==>
              && o.response == ClientFor(s, req).StartAuth(AuthScope, up.freshState).response
              && o.kv == kv[AuthStateKey := up.freshState]
    ensures KeysSet(s) && Get(req.query, "config_key") != Some(s.configKey)
            && ClientFor(s, req).ParseAuthStep2Params(req.query).None? ==>
              && (Truthy(Get(req.query, "error")) ==> o == AuthOutcome(Response(401, Text("User denied access")), kv))
              && (!Truthy(Get(req.query, "error")) ==> o == AuthOutcome(Response(400, Text("Bad Request")), kv))
    ensures o.response.status in {200, 302, 400, 401, 500}
    ensures o.response.status != 200 && o.response.status != 302 ==> o.kv == kv
    ensures forall k :: k != AuthStateKey && k != TokenKey && k != UserIdKey ==> Find(o.kv, k) == Find(kv, k)
    ensures Find(o.kv, TokenKey) != Find(kv, TokenKey) ==> o.response.status == 200
    ensures o.response.status == 200 ==>
              var p := ClientFor(s, req).ParseAuthStep2Params(req.query);
              p.Some? && Find(kv, AuthStateKey) == Some(p.value.state) && AuthStateKey !in o.kv
  {
    if !KeysSet(s) then AuthOutcome(Response(500, Text("Keys are not set up")), kv)
    else
      var auth := ClientFor(s, req);
      if Get(req.query, "config_key") == Some(s.configKey) then
        var step1 := auth.StartAuth(AuthScope, up.freshState);
        AuthOutcome(step1.response, kv[AuthStateKey := step1.appState])
      else
        match auth.ParseAuthStep2Params(req.query)
        case Some(p) =>
          if Find(kv, AuthStateKey) != Some(p.state) then AuthOutcome(Response(401, Text("Invalid state")), kv)
          else
            var shortToken := up.tokenEndpoint(auth.AccessTokenBody(p.code));
            var longToken := up.graphEndpoint(auth.LongLivedTokenUrl(shortToken.accessToken));
            AuthOutcome(TextResponse("Authentication Successful"),
                        (kv - {AuthStateKey})[TokenKey := longToken.accessToken][UserIdKey := longToken.userId])
        case None =>
          if Truthy(Get(req.query, "error")) then AuthOutcome(Response(401, Text("User denied access")), kv)
          else AuthOutcome(Response(400, Text("Bad Request")), kv)
  }

  /** A callback whose state is not the stored one, or when none is stored, is refused and writes nothing. */
  lemma InvalidStateRejected(s: Secrets, req: Request, kv: Kv, up: Upstream)
    requires KeysSet(s) && Get(req.query, "config_key") != Some(s.configKey)
    requires ClientFor(s, req).ParseAuthStep2Params(req.query).Some?
    requires Find(kv, AuthStateKey) != Some(ClientFor(s, req).ParseAuthStep2Params(req.query).value.state)
    ensures AuthTransition(s, req, kv, up) == AuthOutcome(Response(401, Text("Invalid state")), kv)
  {
  }

  /**
   * Any callback that parses and carries the stored state succeeds: the state is
   * consumed and the long-lived token and user id obtained for its code are stored.
   */
  lemma CallbackAccepted(s: Secrets, req: Request, kv: Kv, up: Upstream)
    requires KeysSet(s) && Get(req.query, "config_key") != Some(s.configKey)
    requires ClientFor(s, req).ParseAuthStep2Params(req.query).Some?
    requires Find(kv, AuthStateKey) == Some(ClientFor(s, req).ParseAuthStep2Params(req.query).value.state)
    ensures var auth := ClientFor(s, req);
            var shortToken := up.tokenEndpoint(auth.AccessTokenBody(auth.ParseAuthStep2Params(req.query).value.code));
            var longToken := up.graphEndpoint(auth.LongLivedTokenUrl(shortToken.accessToken));
            AuthTransition(s, req, kv, up)
              == AuthOutcome(TextResponse("Authentication Successful"),
                             (kv - {AuthStateKey})[TokenKey := longToken.accessToken][UserIdKey := longToken.userId])
  {
  }

  /** A successful callback cannot be replayed: the state it used is gone, so the same request is refused. */
  lemma NoReplay(s: Secrets, req: Request, kv: Kv, up: Upstream, later: Upstream)
    requires AuthTransition(s, req, kv, up).response.status == 200
    ensures var after := AuthTransition(s, req, kv, up).kv;
            AuthTransition(s, req, after, later) == AuthOutcome(Response(401, Text("Invalid state")), after)
  {
  }

  /**
   * The whole flow: starting with the configuration key stores the fresh state and
   * redirects with it; the callback Instagram then sends to the same URL with a code
   * and that state succeeds, consumes the state, and stores the long-lived token
   * obtained for that code with the same client and redirect URI.
   */
  lemma AuthorizationCodeFlow(s: Secrets, start: Request, kv: Kv, up: Upstream, code: string, later: Upstream)
    requires KeysSet(s) && Get(start.query, "config_key") == Some(s.configKey)
    requires up.freshState != "" && code != ""
    ensures var first := AuthTransition(s, start, kv, up);
            var auth := ClientFor(s, start);
            var callback := Request(start.host, start.path, [Param("code", code), Param("state", up.freshState)]);
            var second := AuthTransition(s, callback, first.kv, later);
            var shortToken := later.tokenEndpoint(auth.AccessTokenBody(code));
            var longToken := later.graphEndpoint(auth.LongLivedTokenUrl(shortToken.accessToken));
            && first.response == auth.StartAuth(AuthScope, up.freshState).response
            && Find(first.kv, AuthStateKey) == Some(up.freshState)
            && ClientFor(s, callback) == auth
            && second.response == TextResponse("Authentication Successful")
            && AuthStateKey !in second.kv
            && Find(second.kv, TokenKey) == Some(longToken.accessToken)
            && Find(second.kv, UserIdKey) == Some(longToken.userId)
  {
    var ps := [Param("code", code), Param("state", up.freshState)];
    assert |ps[0].name| == 4 && |ps[1].name| == 5;
    GetFirst(ps, 0);
    GetFirst(ps, 1);
    GetFinds(ps, "config_key");
    assert |"config_key"| == 10;
  }

  /** The branches of `updateForm`. */
  datatype UpdateAction = RefuseUnauthenticated | RunSync | RefuseKey | ShowUpdateForm

  /**
   * `updateForm` refuses without a stored token; with one, a non-empty `config_key`
   * runs the sync when it is the configured key and is refused otherwise, and no
   * key (or an empty one) shows the form.
   */
  function UpdateDecision(authenticated: bool, configKey: string, query: seq<Param>): (a: UpdateAction)
    ensures a == RefuseUnauthenticated <==> !authenticated
    ensures a == RunSync <==> authenticated && configKey != "" && Get(query, "config_key") == Some(configKey)
    ensures a == RefuseKey <==> authenticated && Truthy(Get(query, "config_key")) && Get(query, "config_key") != Some(configKey)
    ensures a == ShowUpdateForm <==> authenticated && !Truthy(Get(query, "config_key"))
  {
    if !authenticated then RefuseUnauthenticated
    else
      var queryKey := Get(query, "config_key");
      if Truthy(queryKey) then
        if queryKey.value == configKey then RunSync else RefuseKey
      else ShowUpdateForm
  }

  function UpdateResponse(a: UpdateAction): Response
  {
    match a
    case RefuseUnauthenticated => Response(401, Text("Not Authenticated"))
    case RunSync => TextResponse("Gallery Updated")
    case RefuseKey => Response(401, Text("Invalid Configuration Key"))
    case ShowUpdateForm => Response(200, Html(UpdateGalleryForm))
  }

  /** `authWelcome`: the setup form, warning when a token is already stored. */
  function AuthWelcome(kv: Kv): (resp: Response)
    ensures resp.status == 200 && resp.body.Html? && resp.body.page.SetupForm?
    ensures resp.body.page.alreadyAuthenticated <==> TokenKey in kv && kv[TokenKey] != ""
  {
    Response(200, Html(SetupForm(Authenticated(kv))))
  }

  function Tiles(entries: seq<GalleryEntry>, base: string): seq<Tile>
  {
    seq(|entries|, i requires 0 <= i < |entries| =>
      Tile(entries[i].permalink, base + "/" + ShownKey(entries[i]), entries[i].caption))
  }

  /**
   * `renderGallery`: 404 without a manifest, else one tile per manifest entry. A
   * `gallery.json` that is not a manifest would make the JSON parse throw; the
   * model answers 500 there.
   */
  function RenderGallery(b: Bucket, base: string): (resp: Response)
    ensures ManifestKey !in b ==> resp == Response(404, Text("Gallery not found"))
    ensures ManifestKey in b && b[ManifestKey].ManifestJson? ==>
              resp.status == 200 && resp.body.Html? && resp.body.page.GalleryGrid?
              && |resp.body.page.tiles| == |b[ManifestKey].entries|
              && forall i :: 0 <= i < |b[ManifestKey].entries| ==>
                   var e := b[ManifestKey].entries[i];
                   resp.body.page.tiles[i] == Tile(e.permalink, base + "/" + ShownKey(e), e.caption)
  {
    if ManifestKey !in b then Response(404, Text("Gallery not found"))
    else
      match b[ManifestKey]
      case ManifestJson(entries) => Response(200, Html(GalleryGrid(Tiles(entries, base))))
      case Blob(_) => Response(500, Text("Gallery manifest unreadable"))
  }

  /** The URL behind the object the gallery shows for an entry. */
  function ShownUrl(m: MediaEntry): string
  {
    if m.mediaType == Video then m.thumbnailUrl else m.mediaUrl
  }

  /**
   * After a sync the gallery page shows every fetched entry, in feed order, linked to
   * its permalink, and each image it shows is stored in the bucket whenever the
   * entry had a URL for it.
   */
  lemma RenderAfterSync(b: Bucket, feed: seq<MediaEntry>, fetch: string -> Bytes, base: string)
    ensures var synced := Synced(b, feed, fetch);
            var resp := RenderGallery(synced, base);
            && resp.status == 200 && resp.body.Html? && resp.body.page.GalleryGrid?
            && |resp.body.page.tiles| == |feed|
            && forall i :: 0 <= i < |feed| ==>
                 var key := ShownKey(ToGalleryEntry(feed[i]));
                 && resp.body.page.tiles[i] == Tile(feed[i].permalink, base + "/" + key, feed[i].caption)
                 && (ShownUrl(feed[i]) != "" ==> key in synced)
  {
    var synced := Synced(b, feed, fetch);
    SyncStoresMedia(b, feed, fetch);
    var tiles := Tiles(Manifest(feed), base);
    forall i | 0 <= i < |feed|
      ensures ShownUrl(feed[i]) != "" ==> ShownKey(ToGalleryEntry(feed[i])) in synced
    {
      assert feed[i] in feed;
    }
  }

  /** The worker's environment: its secrets and its two stores. */
  class Env {
    const secrets: Secrets
    var kv: Kv
    var bucket: Bucket

    constructor (secrets: Secrets, kv: Kv, bucket: Bucket)
      ensures this.secrets == secrets && this.kv == kv && this.bucket == bucket
    {
      this.secrets := secrets;
      this.kv := kv;
      this.bucket := bucket;
    }

    /** `downloadImage(name, url)`: skipped for an empty URL or an existing key, else one put. */
    method DownloadImage(name: string, url: string, fetch: string -> Bytes)
      modifies this
      ensures kv == old(kv)
      ensures bucket == Download(old(bucket), name, url, fetch)
    {
      if url == "" {
        return;
      }
      if name in bucket {
        return;
      }
      var bytes := fetch(url);
      bucket := bucket[name := Blob(bytes)];
    }

    /**
     * `fetchUserGallery`: without a stored token nothing happens; otherwise the
     * orphans are deleted, the media and thumbnails downloaded, and the manifest
     * written, in that order.
     */
    method FetchUserGallery(feed: seq<MediaEntry>, fetch: string -> Bytes)
      modifies this
      ensures kv == old(kv)
      ensures !Authenticated(old(kv)) ==> bucket == old(bucket)
      ensures Authenticated(old(kv)) ==> bucket == Synced(old(bucket), feed, fetch)
    {
      if !Truthy(Find(kv, TokenKey)) {
        return;
      }
      var manifest := Manifest(feed);

      var orphans := Orphans(bucket.Keys, feed);
      var pending := orphans;
      while pending != {}
        invariant pending <= orphans
        invariant kv == old(kv)
        invariant bucket == old(bucket) - (orphans - pending)
        decreases pending
      {
        var key :| key in pending;
        bucket := bucket - {key};
        pending := pending - {key};
      }

      assert orphans - pending == orphans;
      var pruned := bucket;
      assert pruned == old(bucket) - Orphans(old(bucket).Keys, feed);
      for i := 0 to |feed|
        invariant kv == old(kv)
        invariant bucket == DownloadAll(pruned, feed[..i], fetch)
      {
        var media := feed[i];
        DownloadImage(MediaKey(media.id), media.mediaUrl, fetch);
        if media.mediaType == Video {
          DownloadImage(ThumbKey(media.id), media.thumbnailUrl, fetch);
        }
        assert feed[..i + 1][..i] == feed[..i];
      }
      assert feed[..|feed|] == feed;

      bucket := bucket[ManifestKey := ManifestJson(manifest)];
    }

    /** `fetchAuth`, one store operation at a time, reaching the state `AuthTransition` gives. */
    method FetchAuth(req: Request, up: Upstream) returns (resp: Response)
      modifies this
      ensures bucket == old(bucket)
      ensures AuthOutcome(resp, kv) == AuthTransition(secrets, req, old(kv), up)
    {
      if secrets.appId == "" || secrets.appSecret == "" || secrets.configKey == "" {
        return Response(500, Text("Keys are not set up"));
      }
      var auth := InstagramAuth(secrets.appId, GetRedirectUri(req), secrets.appSecret);

      var queryKey := Get(req.query, "config_key");
      if queryKey == Some(secrets.configKey) {
        kv := kv - {AuthStateKey};
        var step1 := auth.StartAuth(AuthScope, up.freshState);
        kv := kv[AuthStateKey := step1.appState];
        assert kv == old(kv)[AuthStateKey := step1.appState];
        return step1.response;
      }

      var step2 := auth.ParseAuthStep2Params(req.query);
      if step2.Some? {
        if Find(kv, AuthStateKey) != Some(step2.value.state) {
          return Response(401, Text("Invalid state"));
        }
        var shortToken := up.tokenEndpoint(auth.AccessTokenBody(step2.value.code));
        kv := kv - {AuthStateKey};
        var longToken := up.graphEndpoint(auth.LongLivedTokenUrl(shortToken.accessToken));
        kv := kv[TokenKey := longToken.accessToken];
        kv := kv[UserIdKey := longToken.userId];
        return TextResponse("Authentication Successful");
      }

      if Truthy(Get(req.query, "error")) {
        return Response(401, Text("User denied access"));
      }
      return Response(400, Text("Bad Request"));
    }

    /** `updateForm`: the branch `UpdateDecision` picks; only `RunSync` touches the bucket. */
    method UpdateForm(req: Request, up: Upstream) returns (resp: Response)
      modifies this
      ensures kv == old(kv)
      ensures var a := UpdateDecision(Authenticated(old(kv)), secrets.configKey, req.query);
              && resp == UpdateResponse(a)
              && bucket == (if a == RunSync then Synced(old(bucket), up.feed, up.fetch) else old(bucket))
    {
      if !Truthy(Find(kv, TokenKey)) {
        return Response(401, Text("Not Authenticated"));
      }
      var queryKey := Get(req.query, "config_key");
      if Truthy(queryKey) {
        if queryKey.value == secrets.configKey {
          FetchUserGallery(up.feed, up.fetch);
          return TextResponse("Gallery Updated");
        } else {
          return Response(401, Text("Invalid Configuration Key"));
        }
      }
      return Response(200, Html(UpdateGalleryForm));
    }

    /** `handler.fetch`: dispatch on the exact path; only the auth and update routes change a store. */
    method Fetch(req: Request, up: Upstream) returns (resp: Response)
      modifies this
      ensures RouteOf(req.path) == NotFound ==>
                resp == Response(404, Text("Not Found")) && kv == old(kv) && bucket == old(bucket)
      ensures RouteOf(req.path) == GalleryRoute ==>
                resp == RenderGallery(old(bucket), secrets.bucketBase) && kv == old(kv) && bucket == old(bucket)
      ensures RouteOf(req.path) == WelcomeRoute ==>
                resp == AuthWelcome(old(kv)) && kv == old(kv) && bucket == old(bucket)
      ensures RouteOf(req.path) == AuthRoute ==>
                AuthOutcome(resp, kv) == AuthTransition(secrets, req, old(kv), up) && bucket == old(bucket)
      ensures RouteOf(req.path) == UpdateRoute ==>
                var a := UpdateDecision(Authenticated(old(kv)), secrets.configKey, req.query);
                && resp == UpdateResponse(a) && kv == old(kv)
                && bucket == (if a == RunSync then Synced(old(bucket), up.feed, up.fetch) else old(bucket))
    {
      match RouteOf(req.path)
      case AuthRoute =>
        resp := FetchAuth(req, up);
      case GalleryRoute =>
        resp := RenderGallery(bucket, secrets.bucketBase);
      case UpdateRoute =>
        resp := UpdateForm(req, up);
      case WelcomeRoute =>
        resp := AuthWelcome(kv);
      case NotFound =>
        resp := Response(404, Text("Not Found"));
    }

    /** `handler.scheduled`: the timer runs the sync. */
    method Scheduled(up: Upstream)
      modifies this
      ensures kv == old(kv)
      ensures !Authenticated(old(kv)) ==> bucket == old(bucket)
      ensures Authenticated(old(kv)) ==> bucket == Synced(old(bucket), up.feed, up.fetch)
    {
      FetchUserGallery(up.feed, up.fetch);
    }
  }
}
