# simple-zarr-server: the request-to-store mapping, in Dafny

simple-zarr-server serves a zarr hierarchy node (an Array or a Group) over HTTP. Each
storage key is an addressable blob. GET and HEAD read a key, and PUT writes one when the
node is writable. This project models the layer that turns a request into one store
operation and one response. It has four parts:

- **Access policy.** The node's `read_only` flag fixes the registered methods:
  {GET, HEAD, PUT}, or {GET, HEAD} when read-only. A method outside that set is refused
  by the transport (`MethodNotAllowed`) and never reaches the store.
- **Key composition.** The node's hierarchy path becomes the key prefix: `path + "/"`,
  or `""` at the root. The prefix is concatenated with the request path.
- **Dispatch** (`map_request`).
  - GET and HEAD read the store. HEAD drops the body.
  - Only a missing key (the `KeyError`) becomes 404. Any other exception from the store
    leaves the handler (`Raise`).
  - PUT writes the body. A failure while awaiting the body or writing the store is 404.
    The current revision catches `Exception`. The older one has a bare `except:`, so it
    also turns a `BaseException` such as a task cancellation into 404.
- **Server assembly** (`serve`).
  - A numpy array becomes a new writable in-memory zarr array. A zarr Array or Group is
    served as it is. Any other source is a `TypeError`.
  - The current revision can mount the route under a name. The name prefixes the outward
    URL and never the store key.
  - The docstring of `serve` calls the name a path prefix for the underlying store keys.
    The code only mounts the route under it (src/simple_zarr_server/server.py:89), so
    the model follows the code, and `MountNeverInKey` states it.
  - A CORS policy is added when the list of allowed origins is given and not empty.

The store is a class holding a `map<string, seq<bv8>>` that PUT updates in place. The
exceptions the store raises on a call, and the failure of reading a request body, are
parameters of each request (`Faults`, `Body.Broken`).

Files:
- `wrappers.dfy`: Option and Result.
- `store.dfy`: the store collaborator and the hierarchy node.
- `route.dfy`: the route, with `MapRequest` and `Dispatch` as pure specifications and
  `Route.Handle` as the imperative handler proved against them.
- `route_properties.dfy`: the lemmas about one request and about sequences of requests.
- `server.dfy`: mounting, the source check, CORS, and both revisions of `serve`.

Both revisions catch only `KeyError` on the read path. The model follows the code: no
revision turns a general read failure into 404.

## Model

| member | source | states |
|---|---|---|
| ZarrStore.WriteThenRead | src/simple_zarr_server/server.py:37-44 | a successful `store[key] = v` is read back as exactly `v`, and leaves every other key's read unchanged |
| ZarrStore.Store.Get | src/simple_zarr_server/server.py:44 | `store[key]` gives the stored bytes for a present key, Missing (KeyError) for an absent one, and the raised exception when the call fails |
| ZarrStore.Store.Set | src/simple_zarr_server/server.py:37 | `store[key] = value` stores the value under that key, or raises and leaves the entries unchanged |
| ZarrRoute.RegisteredMethods | src/simple_zarr_server/server.py:27 | GET and HEAD are always registered, PUT exactly when the node is not read-only, and no other method ever is |
| ZarrRoute.PathPrefix | src/simple_zarr_server/server.py:29 | the prefix is empty exactly at the root; otherwise it is the node path followed by one "/" |
| ZarrRoute.MapRequest | src/simple_zarr_server/server.py:31-50 | only a PUT can change the store; it can add or change only the composed key, and every other key keeps its value |
| ZarrRoute.Route.constructor | src/simple_zarr_server/server.py:26-29 | the route's method set and key prefix are the ones the node's `read_only` flag and `path` determine, and it shares the node's store |
| ZarrRoute.Route.Handle | src/simple_zarr_server/server.py:31-52 | the new store entries and the outcome are exactly what `Dispatch` gives for the old entries |
| RouteProperties.KeyComposition | src/simple_zarr_server/server.py:29-32 | the key is the request path itself at the root, and otherwise node path + "/" + request path |
| RouteProperties.KeyExamples | src/simple_zarr_server/server.py:29-32 | "nested" with "0.0" addresses "nested/0.0"; the root with "0.0" addresses "0.0" |
| RouteProperties.RelativePathInverse | src/simple_zarr_server/server.py:29-32 | stripping the prefix from a key gives `rest` if and only if the key is prefix + `rest` |
| RouteProperties.StoreKeyInjective | src/simple_zarr_server/server.py:32 | two request paths under one node that address the same key are equal |
| RouteProperties.NoDoubleSlash | src/simple_zarr_server/server.py:29-32 | composition introduces no "//" when the node path does not end with "/" and the request path does not start with one |
| RouteProperties.MethodSets | src/simple_zarr_server/server.py:27 | a read-only node registers exactly {GET, HEAD}; a writable one registers exactly {GET, HEAD, PUT} |
| RouteProperties.UnregisteredRefused | src/simple_zarr_server/server.py:52 | a method the route does not register is refused, and the store is unchanged |
| RouteProperties.ReadOnlyRefusesPut | src/simple_zarr_server/server.py:27 | a PUT on a read-only node's route is refused, whatever its body or the store's faults, and the store is unchanged |
| RouteProperties.GetFound | src/simple_zarr_server/server.py:44-47 | a GET on a present key gives 200 with a body exactly equal to the stored bytes, and the store is unchanged |
| RouteProperties.HeadFound | src/simple_zarr_server/server.py:45-47 | a HEAD on a present key gives 200 with an empty body |
| RouteProperties.ReadMissing | src/simple_zarr_server/server.py:48-50 | a GET or HEAD on an absent key gives 404 with an empty body, and the store is unchanged |
| RouteProperties.ReadFaultPropagates | src/simple_zarr_server/server.py:42-50 | an exception other than KeyError from the store leaves a GET or HEAD handler instead of becoming 404 |
| RouteProperties.ReadsNeverModify | src/simple_zarr_server/server.py:41-50 | GET and HEAD never change the store, for any store faults |
| RouteProperties.HeadIsGetWithoutBody | src/simple_zarr_server/server.py:43-47 | HEAD has the same effect and status as GET, and the same exceptions, with the body dropped |
| RouteProperties.PutStores | src/simple_zarr_server/server.py:33-38 | a PUT on a writable route sets store[key] to the body (an empty body included), changes nothing else, and gives 200 with an empty body |
| RouteProperties.PutFailure | src/simple_zarr_server/server.py:35-40 | a PUT whose body read or write raises leaves the store unchanged; it gives 404 for an Exception, and the current revision lets any other BaseException propagate |
| RouteProperties.RevisionsAgree | simple_zarr_server/server.py:30-49 | the older handler answers every request as the current one does, except a PUT interrupted by a BaseException that is not an Exception |
| RouteProperties.RevisionsDifferOnInterrupt | simple_zarr_server/server.py:34-39 | the older revision's bare `except:` turns a cancelled PUT into 404, where the current revision propagates it |
| RouteProperties.ReadAfterWrite | tests/test_simple_zarr_server.py:71-73 | after a successful PUT of `b`, a GET on the same path gives 200 with body exactly `b` |
| RouteProperties.PutIdempotent | src/simple_zarr_server/server.py:37 | repeating a successful PUT of the same bytes leaves the store as one PUT does, with the same answer |
| RouteProperties.ReadIdempotent | src/simple_zarr_server/server.py:44 | repeating a GET or HEAD gives the same answer, and the store is unchanged |
| RouteProperties.ReadOnlyRootScenario | tests/test_simple_zarr_server.py:40-56 | a read-only root route over {"0.0", ".zarray"}: GET /0.0 gives the chunk, GET /missing gives 404, and PUT /0.0 is refused with the store unchanged |
| RouteProperties.ReadOnlyReplayUnchanged | tests/test_simple_zarr_server.py:54-56 | over any sequence of requests, a read-only route leaves its store exactly as it was |
| RouteProperties.UnwrittenKeyKept | src/simple_zarr_server/server.py:31-50 | over any sequence of requests, a key that no registered PUT addresses keeps its value, or stays absent |
| RouteProperties.ReadAfterWriteThrough | tests/test_simple_zarr_server.py:59-73 | a successful PUT is read back exactly by a later GET, whatever requests come between, as long as none of them writes that key |
| ZarrServer.MiddlewareFor | src/simple_zarr_server/server.py:91-98 | at most one CORS policy is added, exactly when the allowed origins are given and not empty; it carries those origins and allows credentials |
| ZarrServer.MatchOutward | src/simple_zarr_server/server.py:89 | a URL reaches the route with request path `rest` if and only if it is the outward URL of `rest`: "/" + rest, or "/" + name + "/" + rest under a mount |
| ZarrServer.MountNeverInKey | src/simple_zarr_server/server.py:88-89 | a request at the mounted URL of `rest` acts like the unmounted one: it addresses `pathPrefix + rest`, and the name never enters the key |
| ZarrServer.MountExample | src/simple_zarr_server/server.py:70-72 | mounted as "data.zarr", "/data.zarr/0.0" reaches request path "0.0", the root key "0.0" |
| ZarrServer.App.constructor | src/simple_zarr_server/server.py:89-90 | a new application holds its route under the given mount and has no middleware |
| ZarrServer.App.AddMiddleware | src/simple_zarr_server/server.py:92 | the policy is appended to the application's middleware |
| ZarrServer.App.Handle | src/simple_zarr_server/server.py:89-90 | a request that reaches the router (any request with no CORS middleware installed, otherwise one the middleware passes on) changes the store and answers exactly as the mount match followed by `Dispatch` does; an unmatched URL reaches no route |
| ZarrServer.SourceNode | src/simple_zarr_server/server.py:79-86 | an unsupported source, and only that, is a TypeError with the source's message; a numpy array becomes a new writable root node over a fresh store; a zarr Array or Group is used as it is |
| ZarrServer.Serve | src/simple_zarr_server/server.py:55-99 | the TypeError comes before any route is built; otherwise the new application mounts a current-revision route for the node under the given name, with CORS exactly when origins are given |
| ZarrServer.CreateZarrServer | simple_zarr_server/server.py:11-52 | the older revision builds one unmounted route for the node, with the node's method set, prefix and store, and no middleware |
| ZarrServer.ServeLegacy | simple_zarr_server/server.py:55-88 | the older `serve`: the same type check and CORS rule, with an unmounted older-revision route |

## Left out

- Running the server (`uvicorn.run`), socket binding, the event loop and concurrency are
  left out. Requests are served one at a time, and a request body is an available byte
  sequence or the exception raised while awaiting it.
- Starlette's routing internals are not modelled. The model takes the outward URL
  literally as "/" + name + "/" + rest. Starlette strips trailing "/" from a mount path,
  so an empty name, or one ending in "/", routes differently there. Its redirect of
  "/name" without the trailing slash is also left out.
- The transport's own responses are distinct outcomes: `MethodNotAllowed` (405, with its
  Allow header) and `NoRoute` (404 for an unmatched URL). Their headers and bodies are not
  modelled.
- What the transport does with an exception that leaves the handler (`Raise`) is not
  modelled: a 500 response, or the end of a cancelled task.
- The CORS middleware's header mechanics are left out. Only the policy that is installed
  is recorded.
- ZarrServer.App.Handle: the installed CORS middleware is not applied. With a policy
  installed, a preflight request (OPTIONS carrying `Origin` and
  `Access-Control-Request-Method`) is answered by the middleware itself, 200 or 400 for a
  disallowed origin, at any URL, and never reaches the route. The model would give
  `MethodNotAllowed` or `NoRoute` for it. The contract holds for requests the middleware
  passes on to the router.
- The numpy to zarr conversion, chunking and compression are left out: they are foreign
  library code over floating-point data. An `NdArray` source carries the store entries the
  conversion would produce.
- Store failures are given per call (`Faults`). They are not derived from any store
  implementation.
- ZarrStore.Store.Set: a write that raises is taken to leave the entries unchanged. A
  store that writes part of a value and then raises is not modelled.
- `simple_zarr_server/cli.py` and both `__init__.py` files are not part of this model:
  they parse arguments, open stores on disk and look up the version.
- The older test file calls `create_zarr_server` with a `writeable` argument that its
  signature does not have. That call is not modelled.
