/** The route that maps HTTP requests onto a zarr store (`create_zarr_route` in the current
    revision, the body of `create_zarr_server` in the older one). A route is built once
    from a hierarchy node: the node's `read_only` flag fixes the registered HTTP methods and
    its `path` fixes the prefix of every store key. Each request is then one store read
    (GET, HEAD) or one store write (PUT) and one response. */
module ZarrRoute {
  import opened Wrappers
  import opened ZarrStore

  const StatusOk: nat := 200
  const StatusNotFound: nat := 404

  datatype Method = Get | Head | Put | OtherMethod(name: string)

  /** The body of a request, or the exception raised while awaiting it. */
  datatype Body = Received(bytes: Bytes) | Broken(raised: Raised)

  /** A request as it reaches the route: `path` is the `{path:path}` parameter, the part of
      the URL after the route's leading "/" (possibly empty). */
  datatype Request = Request(verb: Method, path: string, body: Body)

  /** The exceptions the store raises while serving one request, if any:
      `onGet` for `store[key]`, `onSet` for `store[key] = value`. */
  datatype Faults = Faults(onGet: Option<Raised>, onSet: Option<Raised>)

  /** What became of a request: a response, an exception that left the handler, the
      transport's refusal of a method the route does not register, or (at the level of a
      whole application) a URL no route matches. */
  datatype Outcome =
    | Respond(status: nat, body: Bytes)
    | Raise(raised: Raised)
    | MethodNotAllowed
    | NoRoute

  /** The two revisions of the handler differ only in how a failed PUT is caught: the
      current one catches `Exception`, the older one has a bare `except:`. */
  datatype Revision = Current | Legacy

  /** Everything a route fixes when it is built. */
  datatype RouteSpec = RouteSpec(revision: Revision, methods: set<Method>, pathPrefix: string)

  /** The store's entries after a request, and the request's outcome. */
  datatype Step = Step(entries: map<Key, Bytes>, outcome: Outcome)

  /** The methods registered for a node: GET and HEAD always, PUT only when it is writable. */
  function RegisteredMethods(readOnly: bool): (ms: set<Method>)
    ensures Get in ms && Head in ms
    ensures Put in ms <==> !readOnly
    ensures forall m :: m in ms ==> m == Get || m == Head || m == Put
  {
    if !readOnly then {Get, Head, Put} else {Get, Head}
  }

  /** The prefix of every key a node's route addresses: empty at the root of the
      hierarchy, otherwise the node's path followed by one separator. */
  function PathPrefix(nodePath: string): (p: string)
    ensures p == "" <==> nodePath == ""
    ensures p != "" ==> p[..|p| - 1] == nodePath && p[|p| - 1] == '/'
  {
    if nodePath != "" then nodePath + "/" else ""
  }

  /** The store key a request path addresses under a node. */
  function StoreKey(nodePath: string, rest: string): Key {
    PathPrefix(nodePath) + rest
  }

  /** The request path that addresses `key` under a node, if the key lies under it. */
  function RelativePath(nodePath: string, key: Key): Option<string> {
    var p := PathPrefix(nodePath);
    if p <= key then Some(key[|p|..]) else None
  }

  /** The spec of the route built for a node by the given revision. */
  function SpecFor(revision: Revision, readOnly: bool, nodePath: string): RouteSpec {
    RouteSpec(revision, RegisteredMethods(readOnly), PathPrefix(nodePath))
  }

  /** Whether a revision's PUT handler catches an exception: `except Exception` catches
      only Errors, the bare `except:` everything. */
  predicate Catches(revision: Revision, e: Raised) {
    e == Error || revision == Legacy
  }

  /** The outcome of a PUT whose body or write raised `e`. */
  function PutFailed(revision: Revision, e: Raised): Outcome {
    if Catches(revision, e) then Respond(StatusNotFound, []) else Raise(e)
  }

  /** `map_request`: the handler itself, reached only with a registered method. PUT writes
      the body under the composed key; every other method reaches the read branch. */
  function MapRequest(spec: RouteSpec, entries: map<Key, Bytes>, req: Request, faults: Faults): (r: Step)
    ensures req.verb != Put ==> r.entries == entries
    ensures r.entries.Keys <= entries.Keys + {spec.pathPrefix + req.path}
    ensures forall k | k in entries && k != spec.pathPrefix + req.path :: k in r.entries && r.entries[k] == entries[k]
  {
    var key := spec.pathPrefix + req.path;
    if req.verb == Put then
      match req.body
      case Broken(e) => Step(entries, PutFailed(spec.revision, e))
      case Received(blob) =>
        match faults.onSet
        case Some(e) => Step(entries, PutFailed(spec.revision, e))
        case None => Step(Write(entries, key, blob, None), Respond(StatusOk, []))
    else
      match Read(entries, key, faults.onGet)
      case Found(value) => Step(entries, Respond(StatusOk, if req.verb == Head then [] else value))
      case Missing => Step(entries, Respond(StatusNotFound, []))
      case Failed(e) => Step(entries, Raise(e))
  }

  /** A request as the transport delivers it to the route: a method the route has not
      registered is refused before the handler runs. */
  function Dispatch(spec: RouteSpec, entries: map<Key, Bytes>, req: Request, faults: Faults): Step {
    if req.verb in spec.methods then MapRequest(spec, entries, req, faults)
    else Step(entries, MethodNotAllowed)
  }

  /** A route, bound to the store of the node it was built from. The store is borrowed:
      every route of a node, and every request, shares it. */
  class Route {
    const revision: Revision
    const methods: set<Method>
    const pathPrefix: string
    const store: Store

    function Spec(): RouteSpec {
      RouteSpec(revision, methods, pathPrefix)
    }

    /** `create_zarr_route(z)`: the method set and the key prefix are computed once, here. */
    constructor (node: Node, revision: Revision)
      ensures Spec() == SpecFor(revision, node.readOnly, node.path)
      ensures store == node.store
    {
      this.revision := revision;
      methods := RegisteredMethods(node.readOnly);
      pathPrefix := PathPrefix(node.path);
      store := node.store;
    }

    /** One request, dispatched by the transport to `map_request`. */
    method Handle(req: Request, faults: Faults) returns (out: Outcome)
      modifies store
      ensures Step(store.entries, out) == Dispatch(Spec(), old(store.entries), req, faults)
    {
      if req.verb !in methods {
        return MethodNotAllowed;
      }
      var key := pathPrefix + req.path;
      if req.verb == Put {
        match req.body
        case Broken(e) =>
          out := PutFailed(revision, e);
        case Received(blob) =>
          var raised := store.Set(key, blob, faults.onSet);
          out := if raised.None? then Respond(StatusOk, []) else PutFailed(revision, raised.value);
      } else {
        var r := store.Get(key, faults.onGet);
        match r
        case Found(value) =>
          var body := value;
          if req.verb == Head {
            body := [];
          }
          out := Respond(StatusOk, body);
        case Missing =>
          out := Respond(StatusNotFound, []);
        case Failed(e) =>
          out := Raise(e);
      }
    }
  }
}
