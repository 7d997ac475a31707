/** The typed API handle `Api<K>`: a request builder (`RawApi`) and a client
    (`APIClient`) bound to one resource type `K`.

    Neither the builder nor the client is part of this model. The builder's
    operations are a record of arbitrary, possibly failing functions
    (`RequestBuilder`), handed to every operation that uses them. The client
    is an object that logs every request it sends; what comes back is an
    arbitrary function of the requests sent before and of the request itself
    (`Server`), so that "no request was sent" can be stated.
 */
module TypedApi {
  import opened Wrappers
  import opened KubeTypes
  import opened WatchStream

  // ---------------------------------------------------------------------------
  // Serialising a payload

  /** What `create` and `replace` accept: bytes encoded by the caller, or a typed object. */
  datatype Payload<K> = RawBytes(bytes: Bytes) | Typed(resource: K)

  /** `SerializeKubeObject::serialize_kube_object`: raw bytes pass through;
      a typed object is handed to the JSON encoder `toVec`, whose error is
      wrapped as the crate's `SerdeError`. */
  function SerializeKubeObject<K>(payload: Payload<K>, toVec: K -> Result<Bytes, JsonError>): (r: ApiResult<Bytes>)
    ensures payload.RawBytes? ==> r == Ok(payload.bytes)
    ensures payload.Typed? ==> (r.Ok? <==> toVec(payload.resource).Ok?)
    ensures payload.Typed? && r.Ok? ==> r.value == toVec(payload.resource).value
    ensures payload.Typed? && r.Err? ==> r.error == SerdeError(toVec(payload.resource).error)
  {
    match payload
    case RawBytes(bytes) => Ok(bytes)
    case Typed(resource) =>
      match toVec(resource)
      case Ok(bytes) => Ok(bytes)
      case Err(e) => Err(SerdeError(e))
  }

  /** Every item the client reports as an error (a frame that failed to
      decode, say) vanishes without ending the stream, while an `ERROR` event
      the server sent arrives as an `Ok` item like any other and is kept. */
  lemma WatchDropsErrItemsKeepsErrorEvents<K>(a: K, b: K, failure: Error, response: ErrorResponse)
    ensures OkEvents([Ok(Added(a)), Err(failure), Ok(Modified(b)), Ok(WatchEvent<K>.Error(response))])
         == [Added(a), Modified(b), WatchEvent<K>.Error(response)]
  {
    var frames: seq<ApiResult<WatchEvent<K>>> :=
      [Ok(Added(a)), Err(failure), Ok(Modified(b)), Ok(WatchEvent<K>.Error(response))];
    assert frames[1..][1..][1..][1..] == [];
    assert OkEvents(frames[1..][1..][1..]) == [WatchEvent<K>.Error(response)];
    assert OkEvents(frames[1..][1..]) == [Modified(b), WatchEvent<K>.Error(response)];
    assert OkEvents(frames[1..]) == OkEvents(frames[1..][1..]);
  }

  // ---------------------------------------------------------------------------
  // The collaborators

  /** The request builder's code: `Raw` is a `RawApi` value, `Req` a request. */
  datatype RequestBuilder<!Raw, !Req> = RequestBuilder(
    within: (Raw, string) -> Raw,
    group: (Raw, string) -> Raw,
    version: (Raw, string) -> Raw,
    customResource: string -> Raw,
    get: (Raw, string) -> ApiResult<Req>,
    create: (Raw, PostParams, Bytes) -> ApiResult<Req>,
    delete: (Raw, string, DeleteParams) -> ApiResult<Req>,
    list: (Raw, ListParams) -> ApiResult<Req>,
    deleteCollection: (Raw, ListParams) -> ApiResult<Req>,
    patch: (Raw, string, PatchParams, Bytes) -> ApiResult<Req>,
    replace: (Raw, string, PostParams, Bytes) -> ApiResult<Req>,
    watch: (Raw, ListParams, string) -> ApiResult<Req>)

  /** The client's three entry points. */
  datatype Entry = ToRequest | ToRequestStatus | ToRequestEvents

  /** One request the client sent, and through which entry point. */
  datatype Sent<Req> = Sent(entry: Entry, request: Req)

  /** What the other end answers, given the requests sent before and the
      request itself, already decoded into the type the caller asked for. */
  datatype Server<!K, !Req> = Server(
    resource: (seq<Sent<Req>>, Req) -> ApiResult<K>,
    list: (seq<Sent<Req>>, Req) -> ApiResult<ObjectList<K>>,
    objectOrStatus: (seq<Sent<Req>>, Req) -> ApiResult<Either<K, Status>>,
    listOrStatus: (seq<Sent<Req>>, Req) -> ApiResult<Either<ObjectList<K>, Status>>,
    events: (seq<Sent<Req>>, Req) -> ApiResult<seq<ApiResult<WatchEvent<K>>>>)

  /** The client: every call sends its request and returns the server's answer. */
  class APIClient<K, Req> {
    const server: Server<K, Req>
    var sent: seq<Sent<Req>>

    constructor (server: Server<K, Req>)
      ensures this.server == server && sent == []
    {
      this.server := server;
      sent := [];
    }

    /** `request::<K>` */
    method RequestObject(req: Req) returns (r: ApiResult<K>)
      modifies this
      ensures sent == old(sent) + [Sent(ToRequest, req)]
      ensures r == server.resource(old(sent), req)
    {
      r := server.resource(sent, req);
      sent := sent + [Sent(ToRequest, req)];
    }

    /** `request::<ObjectList<K>>` */
    method RequestList(req: Req) returns (r: ApiResult<ObjectList<K>>)
      modifies this
      ensures sent == old(sent) + [Sent(ToRequest, req)]
      ensures r == server.list(old(sent), req)
    {
      r := server.list(sent, req);
      sent := sent + [Sent(ToRequest, req)];
    }

    /** `request_status::<K>`: the object, or the status the server sent instead. */
    method RequestStatusObject(req: Req) returns (r: ApiResult<Either<K, Status>>)
      modifies this
      ensures sent == old(sent) + [Sent(ToRequestStatus, req)]
      ensures r == server.objectOrStatus(old(sent), req)
    {
      r := server.objectOrStatus(sent, req);
      sent := sent + [Sent(ToRequestStatus, req)];
    }

    /** `request_status::<ObjectList<K>>` */
    method RequestStatusList(req: Req) returns (r: ApiResult<Either<ObjectList<K>, Status>>)
      modifies this
      ensures sent == old(sent) + [Sent(ToRequestStatus, req)]
      ensures r == server.listOrStatus(old(sent), req)
    {
      r := server.listOrStatus(sent, req);
      sent := sent + [Sent(ToRequestStatus, req)];
    }

    /** `request_events::<WatchEvent<K>>`: the stream of frames, each decoded or not. */
    method RequestEvents(req: Req) returns (r: ApiResult<seq<ApiResult<WatchEvent<K>>>>)
      modifies this
      ensures sent == old(sent) + [Sent(ToRequestEvents, req)]
      ensures r == server.events(old(sent), req)
    {
      r := server.events(sent, req);
      sent := sent + [Sent(ToRequestEvents, req)];
    }
  }

  // ---------------------------------------------------------------------------
  // The handle

  class Api<K, Raw, Req> {
    /** The request creator. */
    var api: Raw
    /** The client, shared with other handles. */
    const client: APIClient<K, Req>

    /** `Api::customResource`: a handle for a custom resource kind known only by name. */
    constructor CustomResource(builder: RequestBuilder<Raw, Req>, client: APIClient<K, Req>, name: string)
      ensures api == builder.customResource(name) && this.client == client
    {
      api := builder.customResource(name);
      this.client := client;
    }

    /** Scopes the handle to a namespace; only the request creator changes. */
    method Within(builder: RequestBuilder<Raw, Req>, ns: string) returns (self: Api<K, Raw, Req>)
      modifies this
      ensures self == this
      ensures api == builder.within(old(api), ns)
    {
      api := builder.within(api, ns);
      self := this;
    }

    /** Sets the API group; only the request creator changes. */
    method Group(builder: RequestBuilder<Raw, Req>, group: string) returns (self: Api<K, Raw, Req>)
      modifies this
      ensures self == this
      ensures api == builder.group(old(api), group)
    {
      api := builder.group(api, group);
      self := this;
    }

    /** Sets the API version; only the request creator changes. */
    method Version(builder: RequestBuilder<Raw, Req>, version: string) returns (self: Api<K, Raw, Req>)
      modifies this
      ensures self == this
      ensures api == builder.version(old(api), version)
    {
      api := builder.version(api, version);
      self := this;
    }

    /** Fetches one object: a build error is returned with nothing sent;
        otherwise the client's answer is returned as it is. */
    method Get(builder: RequestBuilder<Raw, Req>, name: string) returns (r: ApiResult<K>)
      modifies client
      ensures builder.get(api, name).Err? ==>
                r == Err(builder.get(api, name).error) && client.sent == old(client.sent)
      ensures builder.get(api, name).Ok? ==>
                && client.sent == old(client.sent) + [Sent(ToRequest, builder.get(api, name).value)]
                && r == client.server.resource(old(client.sent), builder.get(api, name).value)
    {
      var req :- builder.get(api, name);
      r := client.RequestObject(req);
    }

    /** Creates an object: the payload is serialised first, and a serialisation
        error is returned before any request is built or sent; then a build
        error is returned with nothing sent; otherwise the client's answer. */
    method Create(builder: RequestBuilder<Raw, Req>, toVec: K -> Result<Bytes, JsonError>,
                  pp: PostParams, data: Payload<K>)
      returns (r: ApiResult<K>)
      modifies client
      ensures SerializeKubeObject(data, toVec).Err? ==>
                r == Err(SerializeKubeObject(data, toVec).error) && client.sent == old(client.sent)
      ensures SerializeKubeObject(data, toVec).Ok? ==>
                var built := builder.create(api, pp, SerializeKubeObject(data, toVec).value);
                && (built.Err? ==> r == Err(built.error) && client.sent == old(client.sent))
                && (built.Ok? ==> client.sent == old(client.sent) + [Sent(ToRequest, built.value)] &&
                                  r == client.server.resource(old(client.sent), built.value))
    {
      var bytes :- SerializeKubeObject(data, toVec);
      var req :- builder.create(api, pp, bytes);
      r := client.RequestObject(req);
    }

    /** Deletes an object: the object that was deleted, or the status the
        server sent instead, exactly as the client reports it. */
    method Delete(builder: RequestBuilder<Raw, Req>, name: string, dp: DeleteParams)
      returns (r: ApiResult<Either<K, Status>>)
      modifies client
      ensures builder.delete(api, name, dp).Err? ==>
                r == Err(builder.delete(api, name, dp).error) && client.sent == old(client.sent)
      ensures builder.delete(api, name, dp).Ok? ==>
                && client.sent == old(client.sent) + [Sent(ToRequestStatus, builder.delete(api, name, dp).value)]
                && r == client.server.objectOrStatus(old(client.sent), builder.delete(api, name, dp).value)
    {
      var req :- builder.delete(api, name, dp);
      r := client.RequestStatusObject(req);
    }

    /** Lists objects: a build error with nothing sent, or the client's answer. */
    method List(builder: RequestBuilder<Raw, Req>, lp: ListParams) returns (r: ApiResult<ObjectList<K>>)
      modifies client
      ensures builder.list(api, lp).Err? ==>
                r == Err(builder.list(api, lp).error) && client.sent == old(client.sent)
      ensures builder.list(api, lp).Ok? ==>
                && client.sent == old(client.sent) + [Sent(ToRequest, builder.list(api, lp).value)]
                && r == client.server.list(old(client.sent), builder.list(api, lp).value)
    {
      var req :- builder.list(api, lp);
      r := client.RequestList(req);
    }

    /** Deletes a collection: the deleted list, or the status the server sent
        instead, exactly as the client reports it. */
    method DeleteCollection(builder: RequestBuilder<Raw, Req>, lp: ListParams)
      returns (r: ApiResult<Either<ObjectList<K>, Status>>)
      modifies client
      ensures builder.deleteCollection(api, lp).Err? ==>
                r == Err(builder.deleteCollection(api, lp).error) && client.sent == old(client.sent)
      ensures builder.deleteCollection(api, lp).Ok? ==>
                && client.sent == old(client.sent) + [Sent(ToRequestStatus, builder.deleteCollection(api, lp).value)]
                && r == client.server.listOrStatus(old(client.sent), builder.deleteCollection(api, lp).value)
    {
      var req :- builder.deleteCollection(api, lp);
      r := client.RequestStatusList(req);
    }

    /** Patches an object with caller-encoded bytes, which are not serialised again. */
    method Patch(builder: RequestBuilder<Raw, Req>, name: string, pp: PatchParams, patch: Bytes)
      returns (r: ApiResult<K>)
      modifies client
      ensures builder.patch(api, name, pp, patch).Err? ==>
                r == Err(builder.patch(api, name, pp, patch).error) && client.sent == old(client.sent)
      ensures builder.patch(api, name, pp, patch).Ok? ==>
                && client.sent == old(client.sent) + [Sent(ToRequest, builder.patch(api, name, pp, patch).value)]
                && r == client.server.resource(old(client.sent), builder.patch(api, name, pp, patch).value)
    {
      var req :- builder.patch(api, name, pp, patch);
      r := client.RequestObject(req);
    }

    /** Replaces an object: serialise, then build, then send, stopping at the first error. */
    method Replace(builder: RequestBuilder<Raw, Req>, toVec: K -> Result<Bytes, JsonError>,
                   name: string, pp: PostParams, data: Payload<K>)
      returns (r: ApiResult<K>)
      modifies client
      ensures SerializeKubeObject(data, toVec).Err? ==>
                r == Err(SerializeKubeObject(data, toVec).error) && client.sent == old(client.sent)
      ensures SerializeKubeObject(data, toVec).Ok? ==>
                var built := builder.replace(api, name, pp, SerializeKubeObject(data, toVec).value);
                && (built.Err? ==> r == Err(built.error) && client.sent == old(client.sent))
                && (built.Ok? ==> client.sent == old(client.sent) + [Sent(ToRequest, built.value)] &&
                                  r == client.server.resource(old(client.sent), built.value))
    {
      var bytes :- SerializeKubeObject(data, toVec);
      var req :- builder.replace(api, name, pp, bytes);
      r := client.RequestObject(req);
    }

    /** Watches from `version`: a build or connection error is returned instead
        of a stream; otherwise the stream holds exactly the frames that
        decoded, in arrival order. */
    method Watch(builder: RequestBuilder<Raw, Req>, lp: ListParams, version: string)
      returns (r: ApiResult<seq<WatchEvent<K>>>)
      modifies client
      ensures builder.watch(api, lp, version).Err? ==>
                r == Err(builder.watch(api, lp, version).error) && client.sent == old(client.sent)
      ensures builder.watch(api, lp, version).Ok? ==>
                var req := builder.watch(api, lp, version).value;
                var answer := client.server.events(old(client.sent), req);
                && client.sent == old(client.sent) + [Sent(ToRequestEvents, req)]
                && (answer.Err? ==> r == Err(answer.error))
                && (answer.Ok? ==> r == Ok(OkEvents(answer.value)))
    {
      var req :- builder.watch(api, lp, version);
      var stream :- client.RequestEvents(req);
      r := Ok(OkEvents(stream));
    }
  }
}
