/**
 * The Knowledge Graph entity operations (src/knowledge_graph.ts): each one
 * is a request descriptor built through `Client.call` plus the mapping of
 * the call's outcome, including the 404 policy of get and delete.
 */
module KnowledgeGraph {
  import opened Results
  import opened Json
  import opened Api

  /** An entity: field ids to field values, with metadata under "meta". */
  type Entity = map<string, Value>

  /**
   * The metadata of an entity can be spread into an object literal the way
   * the model computes it: absent, or an object, or a value without own
   * enumerable properties. The declared entity type only admits an object.
   */
  predicate MetaSpreadable(entity: Entity)
  {
    "meta" in entity ==> !entity["meta"].Str? && !entity["meta"].Arr?
  }

  /** `{...entity.meta}`: the metadata fields, or none. */
  function MetaFields(entity: Entity): map<string, Value>
  {
    if "meta" in entity && entity["meta"].Obj? then entity["meta"].fields else map[]
  }

  /** The body createEntity sends: the entity with its metadata id set. */
  function CreateEntityBody(entityId: string, entity: Entity): (body: Entity)
    requires MetaSpreadable(entity)
    ensures body.Keys == entity.Keys + {"meta"}
    ensures forall k :: k in entity && k != "meta" ==> body[k] == entity[k]
    ensures body["meta"].Obj? && "id" in body["meta"].fields
    ensures body["meta"].fields["id"] == Str(entityId)
    ensures "meta" in entity && entity["meta"].Obj? ==>
      body["meta"].fields.Keys == entity["meta"].fields.Keys + {"id"}
    ensures "meta" in entity && entity["meta"].Obj? ==>
      forall k :: k in entity["meta"].fields && k != "id" ==> body["meta"].fields[k] == entity["meta"].fields[k]
    ensures "meta" !in entity || !entity["meta"].Obj? ==>
      body["meta"] == Obj(map["id" := Str(entityId)])
  {
    entity["meta" := Obj(MetaFields(entity)["id" := Str(entityId)])]
  }

  /** Merging twice with the same id changes nothing more. */
  lemma CreateEntityBodyIdempotent(entityId: string, entity: Entity)
    requires MetaSpreadable(entity)
    ensures MetaSpreadable(CreateEntityBody(entityId, entity))
    ensures CreateEntityBody(entityId, CreateEntityBody(entityId, entity)) == CreateEntityBody(entityId, entity)
  {
    var once := CreateEntityBody(entityId, entity);
    assert MetaFields(once) == MetaFields(entity)["id" := Str(entityId)];
    assert MetaFields(once)["id" := Str(entityId)] == MetaFields(once);
  }

  /** Merging again with another id keeps only the last id. */
  lemma CreateEntityBodyLastIdWins(firstId: string, secondId: string, entity: Entity)
    requires MetaSpreadable(entity)
    ensures MetaSpreadable(CreateEntityBody(firstId, entity))
    ensures CreateEntityBody(secondId, CreateEntityBody(firstId, entity)) == CreateEntityBody(secondId, entity)
  {
    var once := CreateEntityBody(firstId, entity);
    assert MetaFields(once) == MetaFields(entity)["id" := Str(firstId)];
    assert MetaFields(once)["id" := Str(secondId)] == MetaFields(entity)["id" := Str(secondId)];
  }

  /**
   * `apiResponse.response`: the payload of an envelope. Reading a property
   * of null throws; any value other than an object has no such property.
   */
  function ResponseField(envelope: Value): (r: Result<Value, Failure>)
    ensures r.Err? <==> envelope.Null? || envelope.Undefined?
    ensures r.Err? ==> r.error == NullProperty
    ensures envelope.Obj? && "response" in envelope.fields ==> r == Ok(envelope.fields["response"])
    ensures r.Ok? && r.value != Undefined ==>
      envelope.Obj? && "response" in envelope.fields && envelope.fields["response"] == r.value
  {
    match envelope
    case Null => Err(NullProperty)
    case Undefined => Err(NullProperty)
    case Obj(fields) => if "response" in fields then Ok(fields["response"]) else Ok(Undefined)
    case _ => Ok(Undefined)
  }

  /** The envelope's payload, or whatever the call threw. */
  function Unwrap(o: Result<Value, Failure>): Result<Value, Failure>
  {
    match o
    case Ok(envelope) => ResponseField(envelope)
    case Err(e) => Err(e)
  }

  /** The error is an `ApiError` whose response has status 404. */
  predicate IsNotFound<T>(o: Result<T, Failure>)
  {
    o.Err? && o.error.ApiError? && o.error.httpResponse.status == 404
  }

  /** The catch block of get and delete: 404 becomes `absent`, anything else is rethrown. */
  function RecoverNotFound<T>(o: Result<T, Failure>, absent: T): (r: Result<T, Failure>)
    ensures IsNotFound(o) ==> r == Ok(absent)
    ensures !IsNotFound(o) ==> r == o
    ensures !IsNotFound(r)
    ensures r.Err? ==> r == o
    ensures o.Ok? ==> r == o
  {
    if IsNotFound(o) then Ok(absent) else o
  }

  /** Entities: Create. */
  function CreateEntity(client: Client, entityId: string, entityType: string, entity: Entity, fetched: HttpResult): (x: Exchange<Value>)
    requires MetaSpreadable(entity)
    ensures x.request.verb == POST
    ensures x.request.url == client.urlBase + "entities"
    ensures x.request.query == [("api_key", client.apiKey), ("v", client.vParam), ("entityType", entityType)]
    ensures x.request.payload == Some(Obj(CreateEntityBody(entityId, entity)))
    ensures x.request.headers == [JsonContentType]
    ensures Classify(fetched).Err? ==> x.outcome == Classify(fetched)
    ensures Classify(fetched).Ok? ==> x.outcome == ResponseField(Classify(fetched).value)
  {
    var call := Call(client, POST, "entities", [("entityType", Single(entityType))], Some(Obj(CreateEntityBody(entityId, entity))), fetched);
    assert call.request.query[2..] == [("entityType", entityType)] by {
      assert ExpandParams([("entityType", Single(entityType))]) == Entries("entityType", Single(entityType)) + ExpandParams([]);
    }
    Exchange(call.request, Unwrap(call.outcome))
  }

  /** Entities: Get. A 404 yields null; every other error is rethrown unchanged. */
  function GetEntity(client: Client, entityId: string, fetched: HttpResult): (x: Exchange<Value>)
    ensures x.request.verb == GET
    ensures x.request.url == client.urlBase + "entities/" + entityId
    ensures x.request.query == [("api_key", client.apiKey), ("v", client.vParam)]
    ensures x.request.payload == None && x.request.headers == []
    ensures fetched.Received? && fetched.response.status == 404 ==> x.outcome == Ok(Null)
    ensures !IsNotFound(x.outcome)
    ensures Classify(fetched).Err? && !IsNotFound(Classify(fetched)) ==> x.outcome == Classify(fetched)
    ensures Classify(fetched).Ok? ==> x.outcome == ResponseField(Classify(fetched).value)
  {
    var call := Call(client, GET, "entities/" + entityId, [], None, fetched);
    Exchange(call.request, RecoverNotFound(Unwrap(call.outcome), Null))
  }

  /** Entities: Update. The partial entity is sent verbatim; no status is special. */
  function UpdateEntity(client: Client, entityId: string, partialEntity: Entity, fetched: HttpResult): (x: Exchange<Value>)
    ensures x.request.verb == PUT
    ensures x.request.url == client.urlBase + "entities/" + entityId
    ensures x.request.query == [("api_key", client.apiKey), ("v", client.vParam)]
    ensures x.request.payload == Some(Obj(partialEntity))
    ensures x.request.headers == [JsonContentType]
    ensures Classify(fetched).Err? ==> x.outcome == Classify(fetched)
    ensures Classify(fetched).Ok? ==> x.outcome == ResponseField(Classify(fetched).value)
  {
    var call := Call(client, PUT, "entities/" + entityId, [], Some(Obj(partialEntity)), fetched);
    Exchange(call.request, Unwrap(call.outcome))
  }

  /** Entities: Delete. True on success, false on 404, every other error rethrown. */
  function DeleteEntity(client: Client, entityId: string, fetched: HttpResult): (x: Exchange<bool>)
    ensures x.request.verb == DELETE
    ensures x.request.url == client.urlBase + "entities/" + entityId
    ensures x.request.query == [("api_key", client.apiKey), ("v", client.vParam)]
    ensures x.request.payload == None && x.request.headers == []
    ensures x.outcome == Ok(true) <==> Classify(fetched).Ok?
    ensures x.outcome == Ok(false) <==> fetched.Received? && fetched.response.status == 404
    ensures x.outcome.Err? ==> x.outcome.error == Classify(fetched).error && !IsNotFound(Classify(fetched))
  {
    var call := Call(client, DELETE, "entities/" + entityId, [], None, fetched);
    var done: Result<bool, Failure> := match call.outcome
      case Ok(_) => Ok(true)
      case Err(e) => Err(e);
    Exchange(call.request, RecoverNotFound(done, false))
  }

  /**
   * The status policy of all four operations, as one table over the status
   * of a response whose body is a well-formed envelope carrying `payload`.
   */
  lemma StatusDecisionTable(client: Client, entityId: string, entityType: string, entity: Entity, status: int, payload: Value)
    requires MetaSpreadable(entity)
    ensures var resp := Response(status, Some(Obj(map["response" := payload])));
      GetEntity(client, entityId, Received(resp)).outcome ==
        (if IsOk(status) then Ok(payload) else if status == 404 then Ok(Null) else Err(ApiError(resp)))
    ensures var resp := Response(status, Some(Obj(map["response" := payload])));
      DeleteEntity(client, entityId, Received(resp)).outcome ==
        (if IsOk(status) then Ok(true) else if status == 404 then Ok(false) else Err(ApiError(resp)))
    ensures var resp := Response(status, Some(Obj(map["response" := payload])));
      CreateEntity(client, entityId, entityType, entity, Received(resp)).outcome ==
        (if IsOk(status) then Ok(payload) else Err(ApiError(resp)))
    ensures var resp := Response(status, Some(Obj(map["response" := payload])));
      UpdateEntity(client, entityId, entity, Received(resp)).outcome ==
        (if IsOk(status) then Ok(payload) else Err(ApiError(resp)))
  {
  }

  /** A fetch that fails without a response propagates through every operation. */
  lemma RejectedFetchPropagates(client: Client, entityId: string, entityType: string, entity: Entity)
    requires MetaSpreadable(entity)
    ensures GetEntity(client, entityId, Rejected).outcome == Err(FetchRejected)
    ensures DeleteEntity(client, entityId, Rejected).outcome == Err(FetchRejected)
    ensures CreateEntity(client, entityId, entityType, entity, Rejected).outcome == Err(FetchRejected)
    ensures UpdateEntity(client, entityId, entity, Rejected).outcome == Err(FetchRejected)
  {
  }

  /**
   * Creating "loc1" of type "location" from {name: "Store"}, answered by a
   * 2xx envelope carrying `payload`.
   */
  lemma CreateEntityExample(client: Client, status: int, payload: Value)
    requires IsOk(status)
    ensures var x := CreateEntity(client, "loc1", "location", map["name" := Str("Store")],
                                  Received(Response(status, Some(Obj(map["response" := payload])))));
      && x.request.verb == POST
      && x.request.url == client.urlBase + "entities"
      && x.request.query[2..] == [("entityType", "location")]
      && x.request.payload == Some(Obj(map["name" := Str("Store"), "meta" := Obj(map["id" := Str("loc1")])]))
      && x.outcome == Ok(payload)
  {
  }

  /** Updating "loc1" with {name: "New Name"} sends exactly that, with no extra query. */
  lemma UpdateEntityExample(client: Client, fetched: HttpResult)
    ensures var x := UpdateEntity(client, "loc1", map["name" := Str("New Name")], fetched);
      && x.request.verb == PUT
      && x.request.url == client.urlBase + "entities/loc1"
      && |x.request.query| == 2
      && x.request.payload == Some(Obj(map["name" := Str("New Name")]))
  {
  }
}
