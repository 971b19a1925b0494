/**
 * The generic CRUD binder: registering a record type under a collection adds
 * five routes whose handlers list, fetch, create, update and delete documents.
 * The record type is a generic record with an `Id` field instead of a type
 * inspected at run time.
 */
module AutoCrud {
  import opened Wrappers
  import opened Web
  import opened Bson
  import opened Store

  /** The collection that several handlers name literally. */
  const Modules := "modules"
  const ListLimit := 50
  const JsonContentType := "application/json"

  /** The kind of the registered model's type (abridged). */
  datatype Kind = Struct | Ptr | Slice | Map | Interface | Basic

  /** A document of the bound type: its `Id` and its other fields. */
  datatype Record = Record(id: ObjectId, fields: map<string, Json>)

  /** What registration captures: the collection and the model's type. */
  datatype CrudModel = CrudModel(collectionName: string, modelType: Kind)

  datatype Method = GET | POST | PUT | DELETE
  datatype Handler = ListHandler | TakeHandler | CreateHandler | DeleteHandler | UpdateHandler
  datatype Route = Route(verb: Method, path: string, handler: Handler, model: CrudModel)

  /** The router group the routes are added to. */
  class RouterGroup {
    var routes: seq<Route>

    constructor ()
      ensures routes == []
    {
      routes := [];
    }

    method Add(m: Method, path: string, h: Handler, cm: CrudModel)
      modifies this
      ensures routes == old(routes) + [Route(m, path, h, cm)]
    {
      routes := routes + [Route(m, path, h, cm)];
    }
  }

  /** The five routes registration adds, in order. */
  function CrudRoutes(cm: CrudModel): seq<Route>
  {
    [Route(GET, "", ListHandler, cm), Route(GET, "/:id", TakeHandler, cm), Route(POST, "", CreateHandler, cm),
     Route(DELETE, "/:id", DeleteHandler, cm), Route(PUT, "/:id", UpdateHandler, cm)]
  }

  /** Exactly five routes, one per handler, no two on the same method and path, all bound to the one model. */
  lemma CrudRoutesShape(cm: CrudModel)
    ensures |CrudRoutes(cm)| == 5
    ensures forall i :: 0 <= i < 5 ==> CrudRoutes(cm)[i].model == cm
    ensures forall i, j :: 0 <= i < j < 5 ==>
      (CrudRoutes(cm)[i].verb, CrudRoutes(cm)[i].path) != (CrudRoutes(cm)[j].verb, CrudRoutes(cm)[j].path) &&
      CrudRoutes(cm)[i].handler != CrudRoutes(cm)[j].handler
    ensures (set i | 0 <= i < 5 :: (CrudRoutes(cm)[i].verb, CrudRoutes(cm)[i].path)) ==
      {(GET, ""), (GET, "/:id"), (POST, ""), (DELETE, "/:id"), (PUT, "/:id")}
  {
    assert "" != "/:id";
    var rs := CrudRoutes(cm);
    var pairs := set i | 0 <= i < 5 :: (rs[i].verb, rs[i].path);
    assert (rs[0].verb, rs[0].path) in pairs && (rs[1].verb, rs[1].path) in pairs && (rs[2].verb, rs[2].path) in pairs;
    assert (rs[3].verb, rs[3].path) in pairs && (rs[4].verb, rs[4].path) in pairs;
  }

  /** Crud: the five routes when the model is a struct; otherwise a panic and no route. */
  method Crud(r: RouterGroup, modelType: Kind, collectionName: string) returns (panicked: bool)
    modifies r
    ensures panicked <==> modelType != Struct
    ensures r.routes == if panicked then old(r.routes) else old(r.routes) + CrudRoutes(CrudModel(collectionName, modelType))
  {
    if modelType == Struct {
      var cm := CrudModel(collectionName, modelType);
      r.Add(GET, "", ListHandler, cm);
      r.Add(GET, "/:id", TakeHandler, cm);
      r.Add(POST, "", CreateHandler, cm);
      r.Add(DELETE, "/:id", DeleteHandler, cm);
      r.Add(PUT, "/:id", UpdateHandler, cm);
      panicked := false;
    } else {
      panicked := true;
    }
  }

  /** The JSON of a record: its fields, with the id under "Id" as its hexadecimal text. */
  function RecordJson(r: Record): Json
  {
    JObject(r.fields["Id" := JString(Hex(r.id))])
  }

  /** The JSON array entries of a list of records, one per record and in order. */
  function RecordsJson(rs: seq<Record>): (js: seq<Json>)
    ensures |js| == |rs|
    ensures forall i :: 0 <= i < |rs| ==> js[i] == RecordJson(rs[i])
  {
    if rs == [] then [] else [RecordJson(rs[0])] + RecordsJson(rs[1..])
  }

  /** The scratch value a handler allocates and the request body is decoded into. */
  class Scratch {
    var id: ObjectId
    var fields: map<string, Json>

    constructor (decoded: Record)
      ensures id == decoded.id && fields == decoded.fields
    {
      id := decoded.id;
      fields := decoded.fields;
    }

    function Value(): Record
      reads this
    {
      Record(id, fields)
    }
  }

  /**
   * The JSON `c.JSON` writes for the slice `All` filled: a slice into which no
   * document was read stays nil and is written as `null`.
   */
  function ListJson(sent: seq<Record>): (j: Json)
    ensures j == JNull <==> sent == []
    ensures sent != [] ==> j == JArray(RecordsJson(sent))
  {
    if sent == [] then JNull else JArray(RecordsJson(sent))
  }

  /**
   * listModel as written: reads up to 50 documents of "modules"; on a store
   * error it writes 400 and then still writes 200 with `null`.
   */
  method ListModel(cm: CrudModel, c: Context, db: Database<ObjectId, Record>) returns (sent: seq<Record>, ghost keys: seq<ObjectId>)
    modifies c`replies
    ensures |sent| == |keys| <= ListLimit
    ensures forall i :: 0 <= i < |keys| ==> keys[i] in db.C(Modules) && sent[i] == db.C(Modules)[keys[i]]
    ensures forall i, j :: 0 <= i < j < |keys| ==> keys[i] != keys[j]
    ensures FindOp !in db.failing ==>
      |sent| == Min(ListLimit, |db.C(Modules)|) &&
      c.replies == old(c.replies) + [Reply(StatusOK, JsonBody(ListJson(sent)))]
    ensures FindOp in db.failing ==>
      sent == [] &&
      c.replies == old(c.replies) + [Reply(StatusBadRequest, Text(ErrorText(ServerError))), Reply(StatusOK, JsonBody(JNull))]
  {
    var r;
    r, keys := db.FindAll(Modules, ListLimit);
    sent := if r.Success? then r.value else [];
    if r.Failure? {
      c.String(StatusBadRequest, ErrorText(r.error));
    }
    c.JSON(StatusOK, ListJson(sent));
  }

  /** listModel as evidently intended: reads the model's own collection and stops after the 400. */
  method ListModelCorrected(cm: CrudModel, c: Context, db: Database<ObjectId, Record>) returns (sent: seq<Record>, ghost keys: seq<ObjectId>)
    modifies c`replies
    ensures |sent| == |keys| <= ListLimit
    ensures forall i :: 0 <= i < |keys| ==> keys[i] in db.C(cm.collectionName) && sent[i] == db.C(cm.collectionName)[keys[i]]
    ensures forall i, j :: 0 <= i < j < |keys| ==> keys[i] != keys[j]
    ensures FindOp !in db.failing ==>
      |sent| == Min(ListLimit, |db.C(cm.collectionName)|) &&
      c.replies == old(c.replies) + [Reply(StatusOK, JsonBody(ListJson(sent)))]
    ensures FindOp in db.failing ==>
      sent == [] && c.replies == old(c.replies) + [Reply(StatusBadRequest, Text(ErrorText(ServerError)))]
  {
    var r;
    r, keys := db.FindAll(cm.collectionName, ListLimit);
    if r.Failure? {
      c.String(StatusBadRequest, ErrorText(r.error));
      return [], [];
    }
    sent := r.value;
    c.JSON(StatusOK, ListJson(sent));
  }

  /** The reply takeModel's lookup leads to. */
  function LookupReply(found: Result<Record, StoreError>): Reply
  {
    match found
    case Failure(_) => Reply(StatusNotFound, NoBody)
    case Success(d) => Reply(StatusOK, JsonBody(RecordJson(d)))
  }

  /**
   * takeModel after the id is parsed, as written: an id that fails Valid()
   * writes 400 and aborts, but the lookup in the model's collection still
   * runs and writes 404 or 200.
   */
  method TakeWithId(cm: CrudModel, c: Context, db: Database<ObjectId, Record>, id: ObjectId)
    modifies c`replies, c`aborted
    ensures c.replies == old(c.replies) +
      (if id.Valid() then [] else [Reply(StatusBadRequest, Text("id is not a valid ObjectId"))]) +
      [LookupReply(db.FindId(cm.collectionName, id))]
    ensures c.aborted == (old(c.aborted) || !id.Valid() || db.FindId(cm.collectionName, id).Failure?)
  {
    if !id.Valid() {
      c.String(StatusBadRequest, "id is not a valid ObjectId");
      c.Abort();
    }
    var found := db.FindId(cm.collectionName, id);
    if found.Failure? {
      c.AbortWithStatus(StatusNotFound);
    } else {
      c.JSON(StatusOK, RecordJson(found.value));
    }
  }

  /** takeModel after the id is parsed, as evidently intended: an invalid id stops the handler before the store is asked. */
  method TakeWithIdCorrected(cm: CrudModel, c: Context, db: Database<ObjectId, Record>, id: ObjectId)
    modifies c`replies, c`aborted
    ensures c.replies == old(c.replies) +
      [if id.Valid() then LookupReply(db.FindId(cm.collectionName, id))
       else Reply(StatusBadRequest, Text("id is not a valid ObjectId"))]
    ensures c.aborted == (old(c.aborted) || !id.Valid() || db.FindId(cm.collectionName, id).Failure?)
  {
    if !id.Valid() {
      c.String(StatusBadRequest, "id is not a valid ObjectId");
      c.Abort();
      return;
    }
    var found := db.FindId(cm.collectionName, id);
    if found.Failure? {
      c.AbortWithStatus(StatusNotFound);
    } else {
      c.JSON(StatusOK, RecordJson(found.value));
    }
  }

  /**
   * takeModel: the path's text is parsed first, and text that is not an id
   * panics there; an id that parses is always valid, so the 400 branch of
   * TakeWithId is never taken and the reply is the lookup's alone.
   */
  method TakeModel(cm: CrudModel, c: Context, db: Database<ObjectId, Record>)
    modifies c`replies, c`aborted, c`panicked
    ensures var parsed := ObjectIdHex(c.Param("id"));
      && (parsed.Panics? ==>
            c.replies == old(c.replies) && c.aborted == old(c.aborted) && c.panicked)
      && (parsed.Returns? ==>
            c.replies == old(c.replies) + [LookupReply(db.FindId(cm.collectionName, parsed.value))] &&
            c.aborted == (old(c.aborted) || db.FindId(cm.collectionName, parsed.value).Failure?) &&
            c.panicked == old(c.panicked))
  {
    var parsed := ObjectIdHex(c.Param("id"));
    if parsed.Panics? {
      c.Panic();
      return;
    }
    TakeWithId(cm, c, db, parsed.value);
  }

  /**
   * The body of createModel, writing into `name`: a JSON request whose body
   * decodes is stored under a fresh id that replaces whatever id was sent,
   * and answered 201 with the id's hexadecimal text; an insert error panics.
   */
  method CreateIn(c: Context, db: Database<ObjectId, Record>, name: string, decoded: Option<Record>, freshId: ObjectId)
    modifies c`replies, c`panicked, db
    ensures c.contentType != JsonContentType ==>
      c.replies == old(c.replies) + [Reply(StatusBadRequest, Text("Content-Type must be application/json"))] &&
      db.collections == old(db.collections) && c.panicked == old(c.panicked)
    ensures c.contentType == JsonContentType && decoded.None? ==>
      c.replies == old(c.replies) && db.collections == old(db.collections) && c.panicked == old(c.panicked)
    ensures c.contentType == JsonContentType && decoded.Some? && InsertOp !in db.failing && freshId !in old(db.C(name)) ==>
      db.collections == old(db.collections)[name := old(db.C(name))[freshId := decoded.value.(id := freshId)]] &&
      c.replies == old(c.replies) + [Reply(StatusCreated, Text(Hex(freshId)))] && c.panicked == old(c.panicked)
    ensures c.contentType == JsonContentType && decoded.Some? && (InsertOp in db.failing || freshId in old(db.C(name))) ==>
      db.collections == old(db.collections) && c.replies == old(c.replies) && c.panicked
  {
    if c.contentType == JsonContentType {
      if decoded.Some? {
        var model := new Scratch(decoded.value);
        model.id := freshId;
        var err := db.Insert(name, freshId, model.Value());
        if err.Some? {
          c.Panic();
          return;
        }
        c.String(StatusCreated, Hex(freshId));
      }
    } else {
      c.String(StatusBadRequest, "Content-Type must be application/json");
    }
  }

  /** createModel as written: always inserts into "modules". */
  method CreateModel(cm: CrudModel, c: Context, db: Database<ObjectId, Record>, decoded: Option<Record>, freshId: ObjectId)
    modifies c`replies, c`panicked, db
    ensures c.contentType != JsonContentType ==>
      c.replies == old(c.replies) + [Reply(StatusBadRequest, Text("Content-Type must be application/json"))] &&
      db.collections == old(db.collections) && c.panicked == old(c.panicked)
    ensures c.contentType == JsonContentType && decoded.None? ==>
      c.replies == old(c.replies) && db.collections == old(db.collections) && c.panicked == old(c.panicked)
    ensures c.contentType == JsonContentType && decoded.Some? && InsertOp !in db.failing && freshId !in old(db.C(Modules)) ==>
      db.collections == old(db.collections)[Modules := old(db.C(Modules))[freshId := decoded.value.(id := freshId)]] &&
      c.replies == old(c.replies) + [Reply(StatusCreated, Text(Hex(freshId)))] && c.panicked == old(c.panicked)
    ensures c.contentType == JsonContentType && decoded.Some? && (InsertOp in db.failing || freshId in old(db.C(Modules))) ==>
      db.collections == old(db.collections) && c.replies == old(c.replies) && c.panicked
  {
    CreateIn(c, db, Modules, decoded, freshId);
  }

  /** createModel as evidently intended: inserts into the model's own collection. */
  method CreateModelCorrected(cm: CrudModel, c: Context, db: Database<ObjectId, Record>, decoded: Option<Record>, freshId: ObjectId)
    modifies c`replies, c`panicked, db
    ensures c.contentType != JsonContentType ==>
      c.replies == old(c.replies) + [Reply(StatusBadRequest, Text("Content-Type must be application/json"))] &&
      db.collections == old(db.collections) && c.panicked == old(c.panicked)
    ensures c.contentType == JsonContentType && decoded.None? ==>
      c.replies == old(c.replies) && db.collections == old(db.collections) && c.panicked == old(c.panicked)
    ensures c.contentType == JsonContentType && decoded.Some? && InsertOp !in db.failing && freshId !in old(db.C(cm.collectionName)) ==>
      db.collections == old(db.collections)[cm.collectionName := old(db.C(cm.collectionName))[freshId := decoded.value.(id := freshId)]] &&
      c.replies == old(c.replies) + [Reply(StatusCreated, Text(Hex(freshId)))] && c.panicked == old(c.panicked)
    ensures c.contentType == JsonContentType && decoded.Some? && (InsertOp in db.failing || freshId in old(db.C(cm.collectionName))) ==>
      db.collections == old(db.collections) && c.replies == old(c.replies) && c.panicked
  {
    CreateIn(c, db, cm.collectionName, decoded, freshId);
  }

  /**
   * The body of updateModel, writing into `name`: a body that decodes replaces
   * the whole document at the path's id (which keeps its `_id`), answered
   * 200 "Added"; a store error (including no document at that id) panics.
   */
  method UpdateIn(c: Context, db: Database<ObjectId, Record>, name: string, decoded: Option<Record>)
    modifies c`replies, c`panicked, db
    ensures var key := ObjectIdHex(c.Param("id"));
      && (decoded.None? ==>
            c.replies == old(c.replies) && db.collections == old(db.collections) && c.panicked == old(c.panicked))
      && (decoded.Some? && key.Returns? && UpdateOp !in db.failing && key.value in old(db.C(name)) ==>
            db.collections == old(db.collections)[name := old(db.C(name))[key.value := Record(key.value, decoded.value.fields)]] &&
            c.replies == old(c.replies) + [Reply(StatusOK, Text("Added"))] && c.panicked == old(c.panicked))
      && (decoded.Some? && (key.Panics? || UpdateOp in db.failing || key.value !in old(db.C(name))) ==>
            db.collections == old(db.collections) && c.replies == old(c.replies) && c.panicked)
  {
    var id := c.Param("id");
    if decoded.Some? {
      var model := new Scratch(decoded.value);
      var key := ObjectIdHex(id);
      if key.Panics? {
        c.Panic();
        return;
      }
      var err := db.UpdateId(name, key.value, Record(key.value, model.fields));
      if err.Some? {
        c.Panic();
        return;
      }
      c.String(StatusOK, "Added");
    }
  }

  /** updateModel as written: always updates in "modules". */
  method UpdateModel(cm: CrudModel, c: Context, db: Database<ObjectId, Record>, decoded: Option<Record>)
    modifies c`replies, c`panicked, db
    ensures var key := ObjectIdHex(c.Param("id"));
      && (decoded.None? ==>
            c.replies == old(c.replies) && db.collections == old(db.collections) && c.panicked == old(c.panicked))
      && (decoded.Some? && key.Returns? && UpdateOp !in db.failing && key.value in old(db.C(Modules)) ==>
            db.collections == old(db.collections)[Modules := old(db.C(Modules))[key.value := Record(key.value, decoded.value.fields)]] &&
            c.replies == old(c.replies) + [Reply(StatusOK, Text("Added"))] && c.panicked == old(c.panicked))
      && (decoded.Some? && (key.Panics? || UpdateOp in db.failing || key.value !in old(db.C(Modules))) ==>
            db.collections == old(db.collections) && c.replies == old(c.replies) && c.panicked)
  {
    UpdateIn(c, db, Modules, decoded);
  }

  /** updateModel as evidently intended: updates in the model's own collection. */
  method UpdateModelCorrected(cm: CrudModel, c: Context, db: Database<ObjectId, Record>, decoded: Option<Record>)
    modifies c`replies, c`panicked, db
    ensures var key := ObjectIdHex(c.Param("id"));
      && (decoded.None? ==>
            c.replies == old(c.replies) && db.collections == old(db.collections) && c.panicked == old(c.panicked))
      && (decoded.Some? && key.Returns? && UpdateOp !in db.failing && key.value in old(db.C(cm.collectionName)) ==>
            db.collections == old(db.collections)[cm.collectionName := old(db.C(cm.collectionName))[key.value := Record(key.value, decoded.value.fields)]] &&
            c.replies == old(c.replies) + [Reply(StatusOK, Text("Added"))] && c.panicked == old(c.panicked))
      && (decoded.Some? && (key.Panics? || UpdateOp in db.failing || key.value !in old(db.C(cm.collectionName))) ==>
            db.collections == old(db.collections) && c.replies == old(c.replies) && c.panicked)
  {
    UpdateIn(c, db, cm.collectionName, decoded);
  }

  /** deleteModel: removes the path's id from the model's collection and answers 200 "Deleted"; a store error (including no such document) panics. */
  method DeleteModel(cm: CrudModel, c: Context, db: Database<ObjectId, Record>)
    modifies c`replies, c`panicked, db
    ensures var key := ObjectIdHex(c.Param("id"));
      && (key.Returns? && RemoveOp !in db.failing && key.value in old(db.C(cm.collectionName)) ==>
            db.collections == old(db.collections)[cm.collectionName := old(db.C(cm.collectionName)) - {key.value}] &&
            c.replies == old(c.replies) + [Reply(StatusOK, Text("Deleted"))] && c.panicked == old(c.panicked))
      && (key.Panics? || RemoveOp in db.failing || key.value !in old(db.C(cm.collectionName)) ==>
            db.collections == old(db.collections) && c.replies == old(c.replies) && c.panicked)
  {
    var id := c.Param("id");
    var key := ObjectIdHex(id);
    if key.Panics? {
      c.Panic();
      return;
    }
    var err := db.RemoveId(cm.collectionName, key.value);
    if err.Some? {
      c.Panic();
      return;
    }
    c.String(StatusOK, "Deleted");
  }

  /**
   * A resource registered under a collection other than "modules": a record
   * created through POST is not found by GET on the id POST answered with.
   */
  method CreateThenTake(cm: CrudModel, db: Database<ObjectId, Record>, body: Record, freshId: ObjectId)
    returns (created: Context, taken: Context)
    requires freshId.Valid()
    requires InsertOp !in db.failing && FindOp !in db.failing
    requires freshId !in db.C(Modules)
    requires cm.collectionName != Modules && freshId !in db.C(cm.collectionName)
    modifies db
    ensures created.replies == [Reply(StatusCreated, Text(Hex(freshId)))]
    ensures taken.replies == [Reply(StatusNotFound, NoBody)]
  {
    created := new Context(map[], JsonContentType);
    CreateModel(cm, created, db, Some(body), freshId);
    taken := new Context(map["id" := Hex(freshId)], "");
    ObjectIdHexOfHex(freshId);
    TakeModel(cm, taken, db);
  }

  /** With every handler on the model's own collection, GET on the id POST answered with returns the created record. */
  method CreateThenTakeCorrected(cm: CrudModel, db: Database<ObjectId, Record>, body: Record, freshId: ObjectId)
    returns (created: Context, taken: Context)
    requires freshId.Valid()
    requires InsertOp !in db.failing && FindOp !in db.failing
    requires freshId !in db.C(cm.collectionName)
    modifies db
    ensures created.replies == [Reply(StatusCreated, Text(Hex(freshId)))]
    ensures taken.replies == [Reply(StatusOK, JsonBody(RecordJson(body.(id := freshId))))]
  {
    created := new Context(map[], JsonContentType);
    CreateModelCorrected(cm, created, db, Some(body), freshId);
    taken := new Context(map["id" := Hex(freshId)], "");
    ObjectIdHexOfHex(freshId);
    TakeModel(cm, taken, db);
  }
}
