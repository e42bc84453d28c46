/** Requests, responses and the path-based routing of the worker's `fetch` handler. */
module Http {
  import opened Options
  import opened Strings
  import opened Query

  /** What the handlers read of a request: `url.host`, `url.pathname` and `url.searchParams`. */
  datatype Request = Request(host: string, path: string, query: seq<Param>)

  /** One gallery cell: a link to the post around an image served from the bucket. */
  datatype Tile = Tile(href: string, src: string, alt: string)

  /** The HTML pages, reduced to the choices the handlers make. */
  datatype Page =
    | SetupForm(alreadyAuthenticated: bool)
    | UpdateGalleryForm
    | GalleryGrid(tiles: seq<Tile>)

  datatype Body = Text(text: string) | Location(url: string) | Html(page: Page)

  datatype Response = Response(status: nat, body: Body)

  /** `new Response(text)`: status 200. */
  function TextResponse(text: string): Response
  {
    Response(200, Text(text))
  }

  /** `Response.redirect(url, 302)`. */
  function Redirect(url: string): Response
  {
    Response(302, Location(url))
  }

  /** The path with a `/` appended unless it already ends with one. */
  function NormalizePath(path: string): (p: string)
    ensures EndsWith(p, '/')
    ensures |p| == if EndsWith(path, '/') then |path| else |path| + 1
    ensures p[..|path|] == path
  {
    if EndsWith(path, '/') then path else path + "/"
  }

  /** `getRedirectUri`: the request's own URL over https, its path ending with `/`, without the query. */
  function GetRedirectUri(req: Request): (uri: string)
    ensures EndsWith(uri, '/')
    ensures |uri| >= 8 && uri[..8] == "https://"
    ensures |uri| == 8 + |req.host| + |NormalizePath(req.path)|
    ensures uri[8..8 + |req.host|] == req.host
    ensures uri[8 + |req.host|..8 + |req.host| + |req.path|] == req.path
  {
    "https://" + req.host + NormalizePath(req.path)
  }

  /** Normalising is idempotent: a path that already ends with `/` gives the same redirect URI. */
  lemma NormalizePathIdempotent(host: string, path: string, query: seq<Param>)
    ensures NormalizePath(NormalizePath(path)) == NormalizePath(path)
    ensures GetRedirectUri(Request(host, NormalizePath(path), query)) == GetRedirectUri(Request(host, path, query))
  {
  }

  /** The handlers `fetch` dispatches to. */
  datatype Route = AuthRoute | GalleryRoute | UpdateRoute | WelcomeRoute | NotFound

  /** The one path each handler is served on. */
  function PathOf(r: Route): Option<string>
  {
    match r
    case AuthRoute => Some("/auth/")
    case GalleryRoute => Some("/gallery")
    case UpdateRoute => Some("/update")
    case WelcomeRoute => Some("/")
    case NotFound => None
  }

  /** The routing chain of `fetch`: exact path comparison, anything else is not found. */
  function RouteOf(path: string): (r: Route)
    ensures r != NotFound ==> PathOf(r) == Some(path)
    ensures r == NotFound <==> path !in {"/auth/", "/gallery", "/update", "/"}
  {
    if path == "/auth/" then AuthRoute
    else if path == "/gallery" then GalleryRoute
    else if path == "/update" then UpdateRoute
    else if path == "/" then WelcomeRoute
    else NotFound
  }

  /** Every handler is reached by its own path and by no other. */
  lemma RouteOfPathOf(r: Route, path: string)
    requires r != NotFound
    ensures RouteOf(PathOf(r).value) == r
    ensures RouteOf(path) == r <==> path == PathOf(r).value
  {
  }
}
