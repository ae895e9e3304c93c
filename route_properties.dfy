/** What the route promises: the exact key each request addresses, the response each
    method gives, that only PUT writes and only the key it addresses, and, over any
    sequence of requests, that a read-only route never changes its store and that a
    write is read back until the key is written again. */
module RouteProperties {
  import opened Wrappers
  import opened ZarrStore
  import opened ZarrRoute

  // ---------------------------------------------------------------------------
  // Key composition

  /** The key is the request path itself at the root, and otherwise the node's path, one
      separator, then the request path. */
  lemma KeyComposition(nodePath: string, rest: string)
    ensures nodePath == "" ==> StoreKey(nodePath, rest) == rest
    ensures nodePath != "" ==> StoreKey(nodePath, rest) == nodePath + "/" + rest
  {
  }

  /** Two example keys: an array "nested" inside a group, as in the nested-array test, with
      chunk "0.0"; and chunk "0.0" of an array at the root. */
  lemma KeyExamples()
    ensures StoreKey("nested", "0.0") == "nested/0.0"
    ensures StoreKey("", "0.0") == "0.0"
  {
  }

  /** Stripping the node's prefix recovers exactly the request path that addresses a key,
      and only keys under the node have one. */
  lemma RelativePathInverse(nodePath: string, key: Key, rest: string)
    ensures RelativePath(nodePath, key) == Some(rest) <==> key == StoreKey(nodePath, rest)
  {
  }

  /** Distinct request paths under one node address distinct keys. */
  lemma StoreKeyInjective(nodePath: string, rest1: string, rest2: string)
    requires StoreKey(nodePath, rest1) == StoreKey(nodePath, rest2)
    ensures rest1 == rest2
  {
    RelativePathInverse(nodePath, StoreKey(nodePath, rest1), rest1);
    RelativePathInverse(nodePath, StoreKey(nodePath, rest1), rest2);
  }

  predicate HasDoubleSlash(s: string) {
    exists i :: 0 <= i < |s| - 1 && s[i] == '/' && s[i + 1] == '/'
  }

  /** Composition adds no "//": a key holds one only if the node path or the request path
      already did, or the node path ends with the separator, or the request path starts
      with it. */
  lemma NoDoubleSlash(nodePath: string, rest: string)
    requires !HasDoubleSlash(nodePath) && !HasDoubleSlash(rest)
    requires nodePath == "" || nodePath[|nodePath| - 1] != '/'
    requires rest == "" || rest[0] != '/'
    ensures !HasDoubleSlash(StoreKey(nodePath, rest))
  {
  }

  // ---------------------------------------------------------------------------
  // One request

  /** A node's route registers exactly {GET, HEAD} when read-only and {GET, HEAD, PUT}
      otherwise. */
  lemma MethodSets(revision: Revision, nodePath: string)
    ensures SpecFor(revision, true, nodePath).methods == {Get, Head}
    ensures SpecFor(revision, false, nodePath).methods == {Get, Head, Put}
  {
  }

  /** A method the route does not register never reaches the store. */
  lemma UnregisteredRefused(spec: RouteSpec, entries: map<Key, Bytes>, req: Request, faults: Faults)
    requires req.verb !in spec.methods
    ensures Dispatch(spec, entries, req, faults) == Step(entries, MethodNotAllowed)
  {
  }

  /** A PUT on a read-only node's route is refused, whatever its body, and the store is
      unchanged. */
  lemma ReadOnlyRefusesPut(revision: Revision, nodePath: string, entries: map<Key, Bytes>,
                           path: string, body: Body, faults: Faults)
    ensures Dispatch(SpecFor(revision, true, nodePath), entries, Request(Put, path, body), faults)
         == Step(entries, MethodNotAllowed)
  {
  }

  /** A GET on a present key answers 200 with exactly the stored bytes. */
  lemma GetFound(spec: RouteSpec, entries: map<Key, Bytes>, path: string, body: Body, onSet: Option<Raised>)
    requires Get in spec.methods
    requires spec.pathPrefix + path in entries
    ensures Dispatch(spec, entries, Request(Get, path, body), Faults(None, onSet))
         == Step(entries, Respond(StatusOk, entries[spec.pathPrefix + path]))
  {
  }

  /** A HEAD on a present key answers 200 with an empty body. */
  lemma HeadFound(spec: RouteSpec, entries: map<Key, Bytes>, path: string, body: Body, onSet: Option<Raised>)
    requires Head in spec.methods
    requires spec.pathPrefix + path in entries
    ensures Dispatch(spec, entries, Request(Head, path, body), Faults(None, onSet))
         == Step(entries, Respond(StatusOk, []))
  {
  }

  /** GET and HEAD on an absent key answer 404 with an empty body (the KeyError). */
  lemma ReadMissing(spec: RouteSpec, entries: map<Key, Bytes>, req: Request, onSet: Option<Raised>)
    requires req.verb in spec.methods && (req.verb == Get || req.verb == Head)
    requires spec.pathPrefix + req.path !in entries
    ensures Dispatch(spec, entries, req, Faults(None, onSet)) == Step(entries, Respond(StatusNotFound, []))
  {
  }

  /** Only the KeyError of an absent key becomes 404 on a read: any other exception from
      the store leaves the handler. */
  lemma ReadFaultPropagates(spec: RouteSpec, entries: map<Key, Bytes>, req: Request, e: Raised, onSet: Option<Raised>)
    requires req.verb in spec.methods && (req.verb == Get || req.verb == Head)
    ensures Dispatch(spec, entries, req, Faults(Some(e), onSet)) == Step(entries, Raise(e))
  {
  }

  /** GET and HEAD never change the store. */
  lemma ReadsNeverModify(spec: RouteSpec, entries: map<Key, Bytes>, req: Request, faults: Faults)
    requires req.verb == Get || req.verb == Head
    ensures Dispatch(spec, entries, req, faults).entries == entries
  {
  }

  /** The outcome with any response body dropped. */
  function WithoutBody(o: Outcome): Outcome {
    if o.Respond? then Respond(o.status, []) else o
  }

  /** HEAD answers as GET does, status and exceptions alike, without the body; when both
      are registered they agree on the status of every key. */
  lemma HeadIsGetWithoutBody(spec: RouteSpec, entries: map<Key, Bytes>, path: string, body: Body, faults: Faults)
    requires Get in spec.methods && Head in spec.methods
    ensures Dispatch(spec, entries, Request(Head, path, body), faults).entries
         == Dispatch(spec, entries, Request(Get, path, body), faults).entries
    ensures Dispatch(spec, entries, Request(Head, path, body), faults).outcome
         == WithoutBody(Dispatch(spec, entries, Request(Get, path, body), faults).outcome)
  {
  }

  /** A PUT on a writable route stores the body, an empty one included, under the
      composed key, changes nothing else and answers 200. */
  lemma PutStores(spec: RouteSpec, entries: map<Key, Bytes>, path: string, blob: Bytes, onGet: Option<Raised>)
    requires Put in spec.methods
    ensures Dispatch(spec, entries, Request(Put, path, Received(blob)), Faults(onGet, None))
         == Step(entries[spec.pathPrefix + path := blob], Respond(StatusOk, []))
  {
  }

  /** A PUT whose body or write raises changes nothing. Its outcome is 404 when the
      revision's handler catches the exception: always for an Error, and for anything in
      the older revision; an Interrupt leaves the current revision's handler. */
  lemma PutFailure(spec: RouteSpec, entries: map<Key, Bytes>, path: string, body: Body, faults: Faults, e: Raised)
    requires Put in spec.methods
    requires body == Broken(e) || (body.Received? && faults.onSet == Some(e))
    ensures Dispatch(spec, entries, Request(Put, path, body), faults).entries == entries
    ensures Dispatch(spec, entries, Request(Put, path, body), faults).outcome
         == (if e == Error || spec.revision == Legacy then Respond(StatusNotFound, []) else Raise(e))
  {
  }

  /** Both revisions answer every request alike, except a PUT interrupted by a
      BaseException that is not an Exception. */
  lemma RevisionsAgree(methods: set<Method>, pathPrefix: string, entries: map<Key, Bytes>, req: Request, faults: Faults)
    requires req.verb == Put && Put in methods ==> req.body != Broken(Interrupt) && (req.body.Broken? || faults.onSet != Some(Interrupt))
    ensures Dispatch(RouteSpec(Current, methods, pathPrefix), entries, req, faults)
         == Dispatch(RouteSpec(Legacy, methods, pathPrefix), entries, req, faults)
  {
  }

  /** A PUT whose body read is cancelled: 404 from the older revision, the exception
      propagates from the current one. */
  lemma RevisionsDifferOnInterrupt(methods: set<Method>, pathPrefix: string, entries: map<Key, Bytes>, path: string, faults: Faults)
    requires Put in methods
    ensures Dispatch(RouteSpec(Current, methods, pathPrefix), entries, Request(Put, path, Broken(Interrupt)), faults).outcome
         == Raise(Interrupt)
    ensures Dispatch(RouteSpec(Legacy, methods, pathPrefix), entries, Request(Put, path, Broken(Interrupt)), faults).outcome
         == Respond(StatusNotFound, [])
  {
  }

  /** A successful PUT is read back exactly by a following GET on the same path. */
  lemma ReadAfterWrite(spec: RouteSpec, entries: map<Key, Bytes>, path: string, blob: Bytes, body: Body, onSet: Option<Raised>)
    requires Put in spec.methods && Get in spec.methods
    ensures var written := Dispatch(spec, entries, Request(Put, path, Received(blob)), Faults(None, None)).entries;
            Dispatch(spec, written, Request(Get, path, body), Faults(None, onSet)) == Step(written, Respond(StatusOk, blob))
  {
  }

  /** Repeating a PUT of the same bytes leaves the store as one PUT does, with the same answer. */
  lemma PutIdempotent(spec: RouteSpec, entries: map<Key, Bytes>, req: Request, faults: Faults, again: Faults)
    requires req.verb == Put && req.body.Received?
    requires faults.onSet.None? && again.onSet.None?
    ensures var once := Dispatch(spec, entries, req, faults);
              Dispatch(spec, once.entries, req, again) == once
  {
  }

  /** Repeating a GET or HEAD gives the same answer, and the store stays as it was. */
  lemma ReadIdempotent(spec: RouteSpec, entries: map<Key, Bytes>, req: Request, faults: Faults)
    requires req.verb == Get || req.verb == Head
    ensures var once := Dispatch(spec, entries, req, faults);
              Dispatch(spec, once.entries, req, faults) == once
  {
  }

  /** An example: a read-only root route, as in the read-only test, over a store of one
      chunk "0.0" and the array metadata. */
  lemma ReadOnlyRootScenario(blob: Bytes, faults: Faults)
    ensures var entries := map["0.0" := [1, 2], ".zarray" := [123, 125]];
            var spec := SpecFor(Current, true, "");
            && Dispatch(spec, entries, Request(Get, "0.0", Received([])), Faults(None, faults.onSet))
               == Step(entries, Respond(StatusOk, [1, 2]))
            && Dispatch(spec, entries, Request(Get, "missing", Received([])), Faults(None, faults.onSet))
               == Step(entries, Respond(StatusNotFound, []))
            && Dispatch(spec, entries, Request(Put, "0.0", Received(blob)), faults)
               == Step(entries, MethodNotAllowed)
  {
    var entries: map<Key, Bytes> := map["0.0" := [1, 2], ".zarray" := [123, 125]];
    assert "" + "0.0" == "0.0" && "" + "missing" == "missing";
    assert "missing" != "0.0" && "missing" != ".zarray";
    assert "missing" !in entries;
  }

  // ---------------------------------------------------------------------------
  // Sequences of requests

  datatype Event = Event(req: Request, faults: Faults)

  /** The store's entries after the route has served `events` in order. */
  function Replay(spec: RouteSpec, entries: map<Key, Bytes>, events: seq<Event>): map<Key, Bytes>
    decreases |events|
  {
    if events == [] then entries
    else Replay(spec, Dispatch(spec, entries, events[0].req, events[0].faults).entries, events[1..])
  }

  /** Whether an event is a PUT that reaches the handler and addresses `key`. */
  predicate WritesTo(spec: RouteSpec, ev: Event, key: Key) {
    ev.req.verb == Put && Put in spec.methods && spec.pathPrefix + ev.req.path == key
  }

  /** A read-only route leaves its store as it was, over any sequence of requests. */
  lemma {:induction false} ReadOnlyReplayUnchanged(revision: Revision, nodePath: string,
                                                   entries: map<Key, Bytes>, events: seq<Event>)
    ensures Replay(SpecFor(revision, true, nodePath), entries, events) == entries
    decreases |events|
  {
    if events != [] {
      var spec := SpecFor(revision, true, nodePath);
      var ev := events[0];
      if ev.req.verb == Put {
        UnregisteredRefused(spec, entries, ev.req, ev.faults);
      } else {
        assert Dispatch(spec, entries, ev.req, ev.faults).entries == entries;
      }
      ReadOnlyReplayUnchanged(revision, nodePath, entries, events[1..]);
    }
  }

  /** A key that no request in the sequence writes keeps its value, or its absence. */
  lemma {:induction false} UnwrittenKeyKept(spec: RouteSpec, entries: map<Key, Bytes>, events: seq<Event>, key: Key)
    requires forall i :: 0 <= i < |events| ==> !WritesTo(spec, events[i], key)
    ensures Read(Replay(spec, entries, events), key, None) == Read(entries, key, None)
    decreases |events|
  {
    if events != [] {
      var ev := events[0];
      assert !WritesTo(spec, events[0], key);
      var next := Dispatch(spec, entries, ev.req, ev.faults).entries;
      assert Read(next, key, None) == Read(entries, key, None);
      assert forall i :: 0 <= i < |events[1..]| ==> events[1..][i] == events[i + 1];
      UnwrittenKeyKept(spec, next, events[1..], key);
    }
  }

  /** Read after write across other requests: a successful PUT is read back by a later GET
      on its path as long as no request in between writes that key. */
  lemma ReadAfterWriteThrough(spec: RouteSpec, entries: map<Key, Bytes>, path: string, blob: Bytes,
                              between: seq<Event>, body: Body, onSet: Option<Raised>)
    requires Put in spec.methods && Get in spec.methods
    requires forall i :: 0 <= i < |between| ==> !WritesTo(spec, between[i], spec.pathPrefix + path)
    ensures var written := Dispatch(spec, entries, Request(Put, path, Received(blob)), Faults(None, None)).entries;
            var later := Replay(spec, written, between);
              Dispatch(spec, later, Request(Get, path, body), Faults(None, onSet)) == Step(later, Respond(StatusOk, blob))
  {
    var key := spec.pathPrefix + path;
    var written := Dispatch(spec, entries, Request(Put, path, Received(blob)), Faults(None, None)).entries;
    UnwrittenKeyKept(spec, written, between, key);
  }
}
