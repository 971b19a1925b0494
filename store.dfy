/**
 * The document store as the handlers see it: named collections, each a map
 * from primary key (`_id`) to document, and the outcomes the driver reports.
 */
module Store {
  import opened Wrappers

  /** What the driver reports instead of success. */
  datatype StoreError = ErrNotFound | DuplicateKey | ServerError

  /** The text of `err.Error()` for each store error. */
  function ErrorText(e: StoreError): string
  {
    match e
    case ErrNotFound => "not found"
    case DuplicateKey => "E11000 duplicate key error"
    case ServerError => "no reachable servers"
  }

  /** The kinds of driver call; a call whose kind is failing reports a ServerError. */
  datatype Op = FindOp | InsertOp | UpdateOp | RemoveOp

  function Min(a: int, b: int): int { if a <= b then a else b }

  class Database<K(==), D> {
    var collections: map<string, map<K, D>>
    /** The environment's choice of which kinds of call fail on the server side. */
    const failing: set<Op>

    constructor (collections: map<string, map<K, D>>, failing: set<Op>)
      ensures this.collections == collections && this.failing == failing
    {
      this.collections := collections;
      this.failing := failing;
    }

    /** `db.C(name)`: a collection that was never written is empty. */
    function C(name: string): map<K, D>
      reads this
    {
      if name in collections then collections[name] else map[]
    }

    /** `C(name).FindId(key).One(&doc)` (or a find by `_id`): the document, ErrNotFound, or a server error. */
    function FindId(name: string, key: K): (r: Result<D, StoreError>)
      reads this
      ensures r.Success? <==> FindOp !in failing && key in C(name)
      ensures r.Success? ==> r.value == C(name)[key]
      ensures r.Failure? ==> r.error == (if FindOp in failing then ServerError else ErrNotFound)
    {
      if FindOp in failing then Failure(ServerError)
      else if key in C(name) then Success(C(name)[key])
      else Failure(ErrNotFound)
    }

    /**
     * `C(name).Find(nil).Limit(limit).All(&docs)`: as many documents as the
     * limit allows, each at most once, in an order the model leaves open.
     */
    method FindAll(name: string, limit: nat) returns (r: Result<seq<D>, StoreError>, ghost keys: seq<K>)
      requires limit > 0
      ensures r.Failure? <==> FindOp in failing
      ensures r.Failure? ==> r.error == ServerError && keys == []
      ensures r.Success? ==> |r.value| == |keys| == Min(limit, |C(name)|)
      ensures r.Success? ==> forall i :: 0 <= i < |keys| ==> keys[i] in C(name) && r.value[i] == C(name)[keys[i]]
      ensures forall i, j :: 0 <= i < j < |keys| ==> keys[i] != keys[j]
    {
      keys := [];
      if FindOp in failing {
        return Failure(ServerError), keys;
      }
      var coll := C(name);
      var docs: seq<D> := [];
      var remaining := coll.Keys;
      while |docs| < limit && remaining != {}
        invariant remaining <= coll.Keys
        invariant |docs| == |keys| <= limit
        invariant |keys| + |remaining| == |coll.Keys|
        invariant forall i :: 0 <= i < |keys| ==> keys[i] in coll && keys[i] !in remaining && docs[i] == coll[keys[i]]
        invariant forall i, j :: 0 <= i < j < |keys| ==> keys[i] != keys[j]
        decreases remaining
      {
        var k :| k in remaining;
        docs := docs + [coll[k]];
        keys := keys + [k];
        remaining := remaining - {k};
      }
      assert |coll| == |coll.Keys|;
      return Success(docs), keys;
    }

    /** `C(name).Insert(doc)` of a document whose primary key is `key`. */
    method Insert(name: string, key: K, doc: D) returns (err: Option<StoreError>)
      modifies this
      ensures err == (if InsertOp in failing then Some(ServerError)
                      else if key in old(C(name)) then Some(DuplicateKey) else None)
      ensures collections == if err.None? then old(collections)[name := old(C(name))[key := doc]]
                             else old(collections)
    {
      if InsertOp in failing {
        err := Some(ServerError);
      } else if key in C(name) {
        err := Some(DuplicateKey);
      } else {
        collections := collections[name := C(name)[key := doc]];
        err := None;
      }
    }

    /** `C(name).UpdateId(key, doc)`: replaces the whole document; ErrNotFound when nothing has that key. */
    method UpdateId(name: string, key: K, doc: D) returns (err: Option<StoreError>)
      modifies this
      ensures err == (if UpdateOp in failing then Some(ServerError)
                      else if key !in old(C(name)) then Some(ErrNotFound) else None)
      ensures collections == if err.None? then old(collections)[name := old(C(name))[key := doc]]
                             else old(collections)
    {
      if UpdateOp in failing {
        err := Some(ServerError);
      } else if key !in C(name) {
        err := Some(ErrNotFound);
      } else {
        collections := collections[name := C(name)[key := doc]];
        err := None;
      }
    }

    /** `C(name).RemoveId(key)`; ErrNotFound when nothing has that key. */
    method RemoveId(name: string, key: K) returns (err: Option<StoreError>)
      modifies this
      ensures err == (if RemoveOp in failing then Some(ServerError)
                      else if key !in old(C(name)) then Some(ErrNotFound) else None)
      ensures collections == if err.None? then old(collections)[name := old(C(name)) - {key}]
                             else old(collections)
    {
      if RemoveOp in failing {
        err := Some(ServerError);
      } else if key !in C(name) {
        err := Some(ErrNotFound);
      } else {
        collections := collections[name := C(name) - {key}];
        err := None;
      }
    }
  }
}
