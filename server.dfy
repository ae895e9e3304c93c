/** Server assembly (`serve` in both revisions, `create_zarr_server` in the older one): the
    source is checked and turned into a hierarchy node, a route is built for it, the
    current revision optionally mounts the route under a name, and a CORS policy is
    installed when allowed origins are given. Handing the application to the HTTP server
    (`uvicorn.run`) ends assembly; the returned application stands for it. */
module ZarrServer {
  import opened Wrappers
  import opened ZarrStore
  import opened ZarrRoute

  /** What `serve` accepts: a numpy array (given here by the entries `zarr.array` encodes
      it as), a zarr Array or Group, or a value of any other type. */
  datatype Source =
    | NdArray(encoded: map<Key, Bytes>)
    | ZarrArray(node: Node)
    | ZarrGroup(node: Node)
    | Unsupported

  datatype TypeError = TypeError(message: string)

  const SourceTypeMessage: string := "Source is not one of numpy.ndarray, zarr.Array, or zarr.Group."

  /** The options given to the CORS middleware. */
  datatype CorsPolicy = CorsPolicy(allowOrigins: seq<string>, allowCredentials: bool,
                                   allowMethods: seq<string>, allowHeaders: seq<string>)

  /** `if allowed_origins:` holds for a list that is given and not empty. */
  predicate CorsRequested(allowedOrigins: Option<seq<string>>) {
    allowedOrigins.Some? && allowedOrigins.value != []
  }

  /** The policy installed for the allowed origins: credentials allowed, every method and
      every header allowed. */
  function CorsFor(origins: seq<string>): CorsPolicy {
    CorsPolicy(origins, true, ["*"], ["*"])
  }

  /** The middleware a server is assembled with. */
  function MiddlewareFor(allowedOrigins: Option<seq<string>>): (ms: seq<CorsPolicy>)
    ensures |ms| <= 1
    ensures ms != [] <==> CorsRequested(allowedOrigins)
    ensures ms != [] ==> ms[0].allowOrigins == allowedOrigins.value && ms[0].allowCredentials
  {
    if CorsRequested(allowedOrigins) then [CorsFor(allowedOrigins.value)] else []
  }

  /** The leading part of every outward URL of the route: "/", or "/name/" under a mount. */
  function Lead(mount: Option<string>): string {
    match mount
    case None => "/"
    case Some(name) => "/" + name + "/"
  }

  /** The outward URL at which request path `rest` is served. */
  function OutwardPath(mount: Option<string>, rest: string): string {
    Lead(mount) + rest
  }

  /** The request path the route receives for an outward URL, if the URL reaches it. */
  function MatchPath(mount: Option<string>, url: string): Option<string> {
    var lead := Lead(mount);
    if lead <= url then Some(url[|lead|..]) else None
  }

  /** An outward URL reaches the route exactly when it is the outward URL of some request
      path, and then the route receives that path. */
  lemma MatchOutward(mount: Option<string>, url: string, rest: string)
    ensures MatchPath(mount, url) == Some(rest) <==> url == OutwardPath(mount, rest)
  {
  }

  /** One request to an assembled application: the URL is matched against the mount and
      the remainder is dispatched to the route. */
  function AppStep(mount: Option<string>, spec: RouteSpec, entries: map<Key, Bytes>,
                   url: string, verb: Method, body: Body, faults: Faults): Step {
    match MatchPath(mount, url)
    case None => Step(entries, NoRoute)
    case Some(rest) => Dispatch(spec, entries, Request(verb, rest, body), faults)
  }

  /** The mount name changes the outward URL only: a request at the mounted URL of `rest`
      reads or writes exactly what the unmounted URL of `rest` does, the key
      `pathPrefix + rest`, with the name nowhere in it. */
  lemma MountNeverInKey(name: string, spec: RouteSpec, entries: map<Key, Bytes>,
                        rest: string, verb: Method, body: Body, faults: Faults)
    ensures AppStep(Some(name), spec, entries, OutwardPath(Some(name), rest), verb, body, faults)
         == Dispatch(spec, entries, Request(verb, rest, body), faults)
    ensures AppStep(Some(name), spec, entries, OutwardPath(Some(name), rest), verb, body, faults)
         == AppStep(None, spec, entries, OutwardPath(None, rest), verb, body, faults)
  {
  }

  /** The documented example: mounted as "data.zarr", "/data.zarr/0.0" reaches the route
      with request path "0.0", the root key "0.0". */
  lemma MountExample()
    ensures OutwardPath(Some("data.zarr"), "0.0") == "/data.zarr/0.0"
    ensures MatchPath(Some("data.zarr"), "/data.zarr/0.0") == Some("0.0")
    ensures StoreKey("", "0.0") == "0.0"
  {
  }

  /** An assembled application: its one route, the name it is mounted under (if any) and
      the middleware added to it. */
  class App {
    const mount: Option<string>
    const route: Route
    var middleware: seq<CorsPolicy>

    constructor (mount: Option<string>, route: Route)
      ensures this.mount == mount && this.route == route && middleware == []
    {
      this.mount := mount;
      this.route := route;
      middleware := [];
    }

    /** `server.add_middleware(...)`. */
    method AddMiddleware(policy: CorsPolicy)
      modifies this
      ensures middleware == old(middleware) + [policy]
    {
      middleware := middleware + [policy];
    }

    /** A request at an outward URL, routed through the mount to the route. The installed
        middleware is not applied: this is the path of a request the CORS middleware passes
        on to the router, which is every request when no middleware is installed. */
    method Handle(verb: Method, url: string, body: Body, faults: Faults) returns (out: Outcome)
      modifies route.store
      ensures Step(route.store.entries, out) == AppStep(mount, route.Spec(), old(route.store.entries), url, verb, body, faults)
    {
      var rest := MatchPath(mount, url);
      if rest.None? {
        return NoRoute;
      }
      out := route.Handle(Request(verb, rest.value, body), faults);
    }
  }

  /** The type check of `serve`: a numpy array becomes a new in-memory zarr array (writable,
      at the root of its own hierarchy); a zarr Array or Group is served as it is; any other
      source is a TypeError, before anything is built. */
  method SourceNode(source: Source) returns (r: Result<Node, TypeError>)
    ensures r.Err? <==> source.Unsupported?
    ensures r.Err? ==> r.error == TypeError(SourceTypeMessage)
    ensures source.ZarrArray? || source.ZarrGroup? ==> r == Ok(source.node)
    ensures source.NdArray? ==> r.Ok? && !r.value.readOnly && r.value.path == ""
                                && fresh(r.value.store) && r.value.store.entries == source.encoded
  {
    match source
    case NdArray(encoded) =>
      var store := new Store(encoded);
      r := Ok(Node(false, "", store));
    case ZarrArray(node) =>
      r := Ok(node);
    case ZarrGroup(node) =>
      r := Ok(node);
    case Unsupported =>
      r := Err(TypeError(SourceTypeMessage));
  }

  /** `serve` of the current revision, up to handing the application to the HTTP server.
      The route is mounted under "/name" when a name is given. */
  method Serve(source: Source, name: Option<string>, allowedOrigins: Option<seq<string>>)
    returns (r: Result<App, TypeError>)
    ensures r.Err? <==> source.Unsupported?
    ensures r.Err? ==> r.error == TypeError(SourceTypeMessage)
    ensures r.Ok? ==> fresh(r.value) && fresh(r.value.route) && r.value.mount == name
    ensures r.Ok? ==> r.value.middleware == MiddlewareFor(allowedOrigins)
    ensures r.Ok? && (source.ZarrArray? || source.ZarrGroup?) ==>
              && r.value.route.Spec() == SpecFor(Current, source.node.readOnly, source.node.path)
              && r.value.route.store == source.node.store
    ensures r.Ok? && source.NdArray? ==>
              && r.value.route.Spec() == SpecFor(Current, false, "")
              && fresh(r.value.route.store) && r.value.route.store.entries == source.encoded
  {
    var node := SourceNode(source);
    if node.Err? {
      return Err(node.error);
    }
    var route := new Route(node.value, Current);
    var server := new App(name, route);
    if CorsRequested(allowedOrigins) {
      server.AddMiddleware(CorsFor(allowedOrigins.value));
    }
    r := Ok(server);
  }

  /** `create_zarr_server` of the older revision: an application with one unmounted route. */
  method CreateZarrServer(node: Node) returns (app: App)
    ensures fresh(app) && fresh(app.route) && app.mount == None && app.middleware == []
    ensures app.route.Spec() == SpecFor(Legacy, node.readOnly, node.path) && app.route.store == node.store
  {
    var route := new Route(node, Legacy);
    app := new App(None, route);
  }

  /** `serve` of the older revision: no mount name. */
  method ServeLegacy(source: Source, allowedOrigins: Option<seq<string>>) returns (r: Result<App, TypeError>)
    ensures r.Err? <==> source.Unsupported?
    ensures r.Err? ==> r.error == TypeError(SourceTypeMessage)
    ensures r.Ok? ==> fresh(r.value) && fresh(r.value.route) && r.value.mount == None
    ensures r.Ok? ==> r.value.middleware == MiddlewareFor(allowedOrigins)
    ensures r.Ok? && (source.ZarrArray? || source.ZarrGroup?) ==>
              && r.value.route.Spec() == SpecFor(Legacy, source.node.readOnly, source.node.path)
              && r.value.route.store == source.node.store
    ensures r.Ok? && source.NdArray? ==>
              && r.value.route.Spec() == SpecFor(Legacy, false, "")
              && fresh(r.value.route.store) && r.value.route.store.entries == source.encoded
  {
    var node := SourceNode(source);
    if node.Err? {
      return Err(node.error);
    }
    var server := CreateZarrServer(node.value);
    if CorsRequested(allowedOrigins) {
      server.AddMiddleware(CorsFor(allowedOrigins.value));
    }
    r := Ok(server);
  }
}
