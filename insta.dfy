/**
 * The Instagram client of src/insta.ts: the OAuth authorization-code requests of
 * section 4.1 of RFC 6749 as the client builds them, the callback parser, and the
 * media records the Graph API returns. The HTTP calls themselves are not modelled:
 * only the URLs and bodies the client sends.
 *
 * The client builds every URL and body with template strings that paste each value
 * in raw; `Query.Encode` of the parameter list, in the order the template writes
 * them, is that same string.
 */
module Instagram {
  import opened Options
  import opened Query
  import opened Http

  const InstaApiVersion: string := "v18.0"
  const InstaGraphUrl: string := "https://graph.instagram.com/" + InstaApiVersion
  const AuthorizeEndpoint: string := "https://www.instagram.com/oauth/authorize"
  const AccessTokenEndpoint: string := "https://api.instagram.com/oauth/access_token"

  /** What `startAuth` returns: the redirect to Instagram and the state it embedded. */
  datatype AuthStep1 = AuthStep1(response: Response, appState: string)

  /** The two callback parameters `parseAuthStep2Params` extracts. */
  datatype AuthStep2Params = AuthStep2Params(code: string, state: string)

  /** The fields the worker reads from a token endpoint's JSON answer. */
  datatype AccessTokenResponse = AccessTokenResponse(accessToken: string, userId: string)

  datatype MediaType = Image | Video | CarouselAlbum

  /** One element of the Graph API's `/me/media` list; `thumbnailUrl` is only read for a video. */
  datatype MediaEntry = MediaEntry(
    id: string,
    caption: string,
    mediaType: MediaType,
    timestamp: string,
    permalink: string,
    mediaUrl: string,
    thumbnailUrl: string)

  /** A trailing `&name=value` piece, spelled out. */
  lemma LastPiece(name: string, value: string)
    ensures "&" + Piece(Param(name, value)) == "&" + name + "=" + value
  {
  }

  /** `InstagramAuth`: the app's id, the redirect URI registered for it, and its secret. */
  datatype InstagramAuth = InstagramAuth(clientId: string, redirectUri: string, appSecret: string)
  {
    /** The query of the authorization request (section 4.1.1 of RFC 6749), in the order the client writes it. */
    function AuthorizeParams(scope: string, appState: string): seq<Param>
    {
      [Param("client_id", clientId), Param("redirect_uri", redirectUri), Param("scope", scope),
       Param("response_type", "code"), Param("state", appState)]
    }

    /**
     * `startAuth(scope)` with the random state supplied by the caller: a 302 to the
     * authorize URL, and the same state handed back for the caller to store. The
     * state is the last thing in the URL.
     */
    function StartAuth(scope: string, appState: string): (step: AuthStep1)
      ensures step.appState == appState
      ensures step.response.status == 302 && step.response.body.Location?
      ensures step.response.body.url
                == AuthorizeEndpoint + "?" + Encode(AuthorizeParams(scope, appState)[..4]) + "&state=" + appState
    {
      var ps := AuthorizeParams(scope, appState);
      EncodeLast(ps);
      LastPiece("state", appState);
      AuthStep1(Redirect(AuthorizeEndpoint + "?" + Encode(ps)), appState)
    }

    /** Reading the authorize URL back yields every parameter unchanged and in order, the state included. */
    lemma AuthorizeQueryReadsBack(scope: string, appState: string)
      requires Plain(AuthorizeParams(scope, appState))
      ensures var q := Decode(Encode(AuthorizeParams(scope, appState)));
              && q == AuthorizeParams(scope, appState)
              && Get(q, "client_id") == Some(clientId)
              && Get(q, "redirect_uri") == Some(redirectUri)
              && Get(q, "scope") == Some(scope)
              && Get(q, "response_type") == Some("code")
              && Get(q, "state") == Some(appState)
    {
      var ps := AuthorizeParams(scope, appState);
      DecodeEncode(ps);
      // the five names differ in length, except "scope" and "state", which differ in their second letter
      assert |ps[0].name| == 9 && |ps[1].name| == 12 && |ps[2].name| == 5 && |ps[3].name| == 13 && |ps[4].name| == 5;
      assert ps[2].name[1] != ps[4].name[1];
      GetFirst(ps, 0);
      GetFirst(ps, 1);
      GetFirst(ps, 2);
      GetFirst(ps, 3);
      GetFirst(ps, 4);
    }

    /**
     * `parseAuthStep2Params`: the code and state of the callback, or None when
     * either is missing or empty.
     */
    function ParseAuthStep2Params(query: seq<Param>): (r: Option<AuthStep2Params>)
      ensures !Truthy(Get(query, "code")) ==> r == None
      ensures !Truthy(Get(query, "state")) ==> r == None
      ensures Truthy(Get(query, "code")) && Truthy(Get(query, "state")) ==>
                r == Some(AuthStep2Params(Get(query, "code").value, Get(query, "state").value))
    {
      var code := Get(query, "code");
      var state := Get(query, "state");
      if !Truthy(code) || !Truthy(state) then None
      else Some(AuthStep2Params(code.value, state.value))
    }

    /** The callback Instagram sends back, `?code=..&state=..`, parses to exactly that code and state. */
    lemma CallbackRoundTrip(code: string, state: string)
      requires code != "" && state != ""
      requires Plain([Param("code", code), Param("state", state)])
      ensures ParseAuthStep2Params(Decode(Encode([Param("code", code), Param("state", state)])))
                == Some(AuthStep2Params(code, state))
    {
      var ps := [Param("code", code), Param("state", state)];
      DecodeEncode(ps);
      GetFirst(ps, 0);
      GetFirst(ps, 1);
    }

    /** The token request (section 4.1.3 of RFC 6749), in the order the client writes it. */
    function TokenParams(code: string): seq<Param>
    {
      [Param("client_id", clientId), Param("client_secret", appSecret), Param("grant_type", "authorization_code"),
       Param("redirect_uri", redirectUri), Param("code", code)]
    }

    /** The form body `getAccessToken(code)` posts to the access-token endpoint; the code comes last. */
    function AccessTokenBody(code: string): (body: string)
      ensures body == Encode(TokenParams(code)[..4]) + "&code=" + code
    {
      var ps := TokenParams(code);
      EncodeLast(ps);
      LastPiece("code", code);
      Encode(ps)
    }

    /**
     * The token request names the same client and the same redirect URI as the
     * authorization request, asks for `authorization_code` and carries the code.
     */
    lemma TokenRequestMatchesAuthorize(scope: string, appState: string, code: string)
      requires Plain(AuthorizeParams(scope, appState)) && Plain(TokenParams(code))
      ensures var body := Decode(AccessTokenBody(code));
              var auth := Decode(Encode(AuthorizeParams(scope, appState)));
              && Get(body, "grant_type") == Some("authorization_code")
              && Get(body, "client_id") == Get(auth, "client_id")
              && Get(body, "redirect_uri") == Get(auth, "redirect_uri")
              && Get(body, "code") == Some(code)
    {
      var ps := TokenParams(code);
      DecodeEncode(ps);
      assert |ps[0].name| == 9 && |ps[1].name| == 13 && |ps[2].name| == 10 && |ps[3].name| == 12 && |ps[4].name| == 4;
      GetFirst(ps, 0);
      GetFirst(ps, 2);
      GetFirst(ps, 3);
      GetFirst(ps, 4);
      AuthorizeQueryReadsBack(scope, appState);
    }

    /** The query of the long-lived token exchange, in the order the client writes it. */
    function ExchangeParams(accessToken: string): seq<Param>
    {
      [Param("grant_type", "ig_exchange_token"), Param("client_secret", appSecret), Param("access_token", accessToken)]
    }

    /** The URL `getLongLivedToken(accessToken)` requests; the token comes last. */
    function LongLivedTokenUrl(accessToken: string): (url: string)
      ensures url == InstaGraphUrl + "/access_token?" + Encode(ExchangeParams(accessToken)[..2])
                       + "&access_token=" + accessToken
    {
      var ps := ExchangeParams(accessToken);
      EncodeLast(ps);
      var head := InstaGraphUrl + "/access_token?";
      LastPiece("access_token", accessToken);
      assert head + Encode(ps) == head + Encode(ps[..2]) + ("&" + Piece(ps[2]));
      head + Encode(ps)
    }

    /** The exchange asks for `ig_exchange_token` and carries exactly the given short-lived token. */
    lemma ExchangeCarriesToken(accessToken: string)
      requires Plain(ExchangeParams(accessToken))
      ensures var q := Decode(Encode(ExchangeParams(accessToken)));
              Get(q, "grant_type") == Some("ig_exchange_token") && Get(q, "access_token") == Some(accessToken)
    {
      var ps := ExchangeParams(accessToken);
      DecodeEncode(ps);
      assert |ps[0].name| == 10 && |ps[1].name| == 13 && |ps[2].name| == 12;
      GetFirst(ps, 0);
      GetFirst(ps, 2);
    }
  }
}
