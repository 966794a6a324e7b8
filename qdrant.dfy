/** The vector store as the paper store sees it through its client: named
    collections of points keyed by integer ids. Only the behaviour the store
    relies on is modelled; every remote call may fail, and whether it does is
    a parameter (`fault`). Vectors are opaque: no similarity is computed. */
module Qdrant {
  import opened Wrappers
  import opened Records

  type Vector = seq<real>

  datatype Distance = Cosine | Euclid | Dot | Manhattan

  /** `qmodels.VectorParams(size=..., distance=...)`. */
  datatype VectorParams = VectorParams(size: nat, distance: Distance)

  /** `qmodels.PointStruct(id=..., vector=..., payload=...)`. */
  datatype PointStruct = PointStruct(id: int, vector: Vector, payload: Record)

  /** What a collection holds under one id. */
  datatype StoredPoint = StoredPoint(vector: Vector, payload: Record)

  datatype Collection = Collection(params: VectorParams, points: map<int, StoredPoint>)

  /** One search hit: the point's id, its payload and its similarity score. */
  datatype ScoredPoint = ScoredPoint(id: int, payload: Record, score: string)

  /** The arguments of `client.search(collection_name=..., query_vector=..., limit=...)`. */
  datatype SearchRequest = SearchRequest(collectionName: string, queryVector: Vector, limit: int)

  /** The server's answer to a search over its current collections (ranking
      is the server's business and is not modelled). */
  type SearchService = (map<string, Collection>, SearchRequest) -> Result<seq<ScoredPoint>, Error>

  /** Upserting a batch into a points map, point by point in batch order. */
  function Upserted(points: map<int, StoredPoint>, batch: seq<PointStruct>): map<int, StoredPoint>
    decreases |batch|
  {
    if batch == [] then points
    else
      var last := batch[|batch| - 1];
      Upserted(points, batch[..|batch| - 1])[last.id := StoredPoint(last.vector, last.payload)]
  }

  /** Upsert adds exactly the ids of the batch. */
  lemma {:induction false} UpsertedKeys(points: map<int, StoredPoint>, batch: seq<PointStruct>)
    ensures Upserted(points, batch).Keys == points.Keys + (set p | p in batch :: p.id)
    decreases |batch|
  {
    if batch != [] {
      var prefix, last := batch[..|batch| - 1], batch[|batch| - 1];
      assert batch == prefix + [last];
      UpsertedKeys(points, prefix);
      assert (set p | p in batch :: p.id) == (set p | p in prefix :: p.id) + {last.id};
    }
  }

  /** An id the batch does not mention keeps its point. */
  lemma {:induction false} UpsertedUntouched(points: map<int, StoredPoint>, batch: seq<PointStruct>, id: int)
    requires id in points
    requires forall k :: 0 <= k < |batch| ==> batch[k].id != id
    ensures id in Upserted(points, batch) && Upserted(points, batch)[id] == points[id]
    decreases |batch|
  {
    if batch != [] {
      var prefix := batch[..|batch| - 1];
      forall k | 0 <= k < |prefix| ensures prefix[k].id != id {
        assert prefix[k] == batch[k];
      }
      UpsertedUntouched(points, prefix, id);
    }
  }

  /** An id of the batch holds the last point of the batch with that id. */
  lemma {:induction false} UpsertedLastWins(points: map<int, StoredPoint>, batch: seq<PointStruct>, k: int)
    requires 0 <= k < |batch|
    requires forall j :: k < j < |batch| ==> batch[j].id != batch[k].id
    ensures batch[k].id in Upserted(points, batch)
    ensures Upserted(points, batch)[batch[k].id] == StoredPoint(batch[k].vector, batch[k].payload)
    decreases |batch|
  {
    if k < |batch| - 1 {
      var prefix := batch[..|batch| - 1];
      assert prefix[k] == batch[k];
      forall j | k < j < |prefix| ensures prefix[j].id != prefix[k].id {
        assert prefix[j] == batch[j];
      }
      UpsertedLastWins(points, prefix, k);
    }
  }

  /** The collection state after `upsert`, or the error the server raises:
      the injected fault, or a missing collection. */
  function UpsertResult(collections: map<string, Collection>, name: string, batch: seq<PointStruct>,
                        fault: Option<Error>): Result<map<string, Collection>, Error>
  {
    if fault.Some? then Failure(fault.value)
    else if name !in collections then Failure(ServiceError("Collection `" + name + "` not found"))
    else
      var c := collections[name];
      Success(collections[name := c.(points := Upserted(c.points, batch))])
  }

  /** The remote collections behind a `QdrantClient`. */
  class Client {
    var collections: map<string, Collection>

    constructor (collections: map<string, Collection>)
      ensures this.collections == collections
    {
      this.collections := collections;
    }

    /** `get_collections()`: the names of the existing collections. */
    method GetCollections(fault: Option<Error>) returns (r: Result<set<string>, Error>)
      ensures r == if fault.Some? then Failure(fault.value) else Success(collections.Keys)
    {
      if fault.Some? {
        return Failure(fault.value);
      }
      return Success(collections.Keys);
    }

    /** `create_collection(...)`: a new, empty collection under `name`. */
    method CreateCollection(name: string, params: VectorParams, fault: Option<Error>) returns (r: Outcome<Error>)
      modifies this
      ensures r == if fault.Some? then Fail(fault.value) else Pass
      ensures collections == if r.Pass? then old(collections)[name := Collection(params, map[])] else old(collections)
    {
      if fault.Some? {
        return Fail(fault.value);
      }
      collections := collections[name := Collection(params, map[])];
      return Pass;
    }

    /** `upsert(collection_name=..., points=...)`. */
    method Upsert(name: string, batch: seq<PointStruct>, fault: Option<Error>) returns (r: Outcome<Error>)
      modifies this
      ensures var u := UpsertResult(old(collections), name, batch, fault);
        && (r.Pass? <==> u.Success?)
        && (r.Fail? ==> r.error == u.error && collections == old(collections))
        && (r.Pass? ==> collections == u.value)
    {
      var u := UpsertResult(collections, name, batch, fault);
      if u.Failure? {
        return Fail(u.error);
      }
      collections := u.value;
      return Pass;
    }
  }
}
