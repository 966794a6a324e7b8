/** The paper store: a `PaperStorage` keeps the papers as points of one
    vector-store collection, with the embedding of the paper's title and
    summary as vector and the paper's seven fields as payload, and answers
    similarity searches with the payloads of the hits. The embedder is
    abstract (a function that may fail); the store talks to the vector store
    only through a `Qdrant.Client`. */
module Storage {
  import opened Wrappers
  import opened Records
  import opened Qdrant
  import Configuration

  /** The sentence embedder: the vector of a text, or the error it raises. */
  type Embedder = string -> Result<Vector, Error>

  const CollectionName := "paperscope_papers"

  /** The text whose embedding fixes the vector size of a new collection. */
  const ProbeText := "test"

  const NotConfigured := "Qdrant not configured. Set QDRANT_URL and QDRANT_API_KEY"

  // ---- _create_collection ----

  /** `_create_collection`: the collections after the call, or the exception it
      re-raises. The collection is created only when its name is not listed. */
  function EnsureCollection(collections: map<string, Collection>, name: string, embed: Embedder,
                            listFault: Option<Error>, createFault: Option<Error>): Result<map<string, Collection>, Error>
  {
    if listFault.Some? then Failure(listFault.value)
    else if name in collections then Success(collections)
    else
      match embed(ProbeText)
      case Failure(e) => Failure(e)
      case Success(probe) =>
        if createFault.Some? then Failure(createFault.value)
        else Success(collections[name := Collection(VectorParams(|probe|, Cosine), map[])])
  }

  /** An existing collection is left alone, whatever the embedder and the
      create call would do; a missing one is created empty, with cosine
      distance and the size of the probe embedding, and nothing else changes. */
  lemma EnsureCollectionEffect(collections: map<string, Collection>, name: string, embed: Embedder,
                               listFault: Option<Error>, createFault: Option<Error>)
    ensures var r := EnsureCollection(collections, name, embed, listFault, createFault);
      && (listFault.None? && name in collections ==> r == Success(collections))
      && (r.Success? && name !in collections ==>
            && embed(ProbeText).Success?
            && r.value == collections[name := Collection(VectorParams(|embed(ProbeText).value|, Cosine), map[])])
      && (r.Success? ==> name in r.value && r.value.Keys == collections.Keys + {name}
                         && forall n :: n in collections ==> r.value[n] == collections[n])
      && (r.Failure? <==> listFault.Some? || (name !in collections && (embed(ProbeText).Failure? || createFault.Some?)))
  {
  }

  /** Once the call has succeeded, a second call changes nothing. */
  lemma EnsureCollectionIdempotent(collections: map<string, Collection>, name: string, embed: Embedder,
                                   createFault: Option<Error>, createFault': Option<Error>)
    requires EnsureCollection(collections, name, embed, None, createFault).Success?
    ensures var once := EnsureCollection(collections, name, embed, None, createFault).value;
      EnsureCollection(once, name, embed, None, createFault') == Success(once)
  {
  }

  // ---- store_papers ----

  /** The point `store_papers` builds for the paper at position `id`: the
      title is read, then the summary, then the embedding of
      `f"{title} {summary}"` is computed, then the payload dict is built. */
  function MakePoint(embed: Embedder, id: nat, paper: Record): Result<PointStruct, Error> {
    if "title" !in paper then Failure(KeyError("title"))
    else if "summary" !in paper then Failure(KeyError("summary"))
    else
      match embed(Render(paper["title"]) + " " + Render(paper["summary"]))
      case Failure(e) => Failure(e)
      case Success(v) =>
        match Project(paper, PaperFields)
        case Failure(e) => Failure(e)
        case Success(payload) => Success(PointStruct(id, v, payload))
  }

  /** A built point has the position as id, the embedding of title and summary
      as vector, and exactly the seven paper fields, copied, as payload. */
  lemma MakePointShape(embed: Embedder, id: nat, paper: Record)
    ensures var r := MakePoint(embed, id, paper);
      && (r.Success? <==> (forall k :: k in PaperKeys ==> k in paper)
                          && embed(Render(paper["title"]) + " " + Render(paper["summary"])).Success?)
      && (r.Success? ==>
            && r.value.id == id
            && embed(Render(paper["title"]) + " " + Render(paper["summary"])) == Success(r.value.vector)
            && r.value.payload.Keys == PaperKeys
            && forall k :: k in PaperKeys ==> r.value.payload[k] == paper[k])
  {
    PaperFieldsKeys();
  }

  function PointMaker(embed: Embedder): (nat, Record) -> Result<PointStruct, Error> {
    (i: nat, paper: Record) => MakePoint(embed, i, paper)
  }

  /** The `points` list of `store_papers`, or the first exception raised while
      building it. */
  function BuildPoints(embed: Embedder, papers: seq<Record>): Result<seq<PointStruct>, Error> {
    MapResults(PointMaker(embed), papers)
  }

  /** The points in terms of `MakePoint`: all of them in order, or the first
      failure. */
  lemma BuildPointsSpec(embed: Embedder, papers: seq<Record>)
    ensures var r := BuildPoints(embed, papers);
      && (r.Success? <==> forall k :: 0 <= k < |papers| ==> MakePoint(embed, k, papers[k]).Success?)
      && (r.Success? ==> |r.value| == |papers| && forall k :: 0 <= k < |papers| ==> MakePoint(embed, k, papers[k]) == Success(r.value[k]))
      && (r.Failure? ==> exists i :: 0 <= i < |papers| && MakePoint(embed, i, papers[i]) == Failure(r.error)
                                     && forall j :: 0 <= j < i ==> MakePoint(embed, j, papers[j]).Success?)
  {
    var f := PointMaker(embed);
    assert forall k :: 0 <= k < |papers| ==> f(k, papers[k]) == MakePoint(embed, k, papers[k]);
  }

  /** `store_papers`: what it returns and the collections afterwards. */
  function StoreOutcome(embed: Embedder, name: string, collections: map<string, Collection>,
                        papers: seq<Record>, fault: Option<Error>): (Result<nat, Error>, map<string, Collection>)
  {
    if papers == [] then (Success(0), collections)
    else
      match BuildPoints(embed, papers)
      case Failure(e) => (Failure(e), collections)
      case Success(points) =>
        match UpsertResult(collections, name, points, fault)
        case Failure(e) => (Failure(e), collections)
        case Success(after) => (Success(|papers|), after)
  }

  /** No papers: 0 is returned and nothing is upserted. Otherwise the count of
      papers is returned, or an exception leaves every collection as it was. */
  lemma StoreOutcomeResult(embed: Embedder, name: string, collections: map<string, Collection>,
                           papers: seq<Record>, fault: Option<Error>)
    ensures var (r, after) := StoreOutcome(embed, name, collections, papers, fault);
      && (papers == [] ==> r == Success(0) && after == collections)
      && (r.Success? ==> r.value == |papers|)
      && (r.Failure? ==> after == collections)
      && (papers != [] && BuildPoints(embed, papers).Failure? ==> r == Failure(BuildPoints(embed, papers).error))
      && (papers != [] && BuildPoints(embed, papers).Success? && fault.Some? ==> r == Failure(fault.value))
      && (papers != [] ==>
            (r.Success? <==> fault.None? && name in collections
                             && forall k :: 0 <= k < |papers| ==> MakePoint(embed, k, papers[k]).Success?))
  {
    BuildPointsSpec(embed, papers);
  }

  /** The points built for `n` papers have ids exactly `0..n-1`, in order. */
  lemma BuildPointsIds(embed: Embedder, papers: seq<Record>)
    requires BuildPoints(embed, papers).Success?
    ensures var points := BuildPoints(embed, papers).value;
      |points| == |papers| && forall k :: 0 <= k < |points| ==> points[k].id == k
  {
    var points := BuildPoints(embed, papers).value;
    forall k | 0 <= k < |points| ensures points[k].id == k {
      assert PointMaker(embed)(k, papers[k]) == Success(points[k]);
    }
  }

  /** A successful store overwrites exactly the ids `0..n-1` of the named
      collection, each with the point built from the paper at that position,
      and leaves every other id and every other collection untouched. */
  lemma StoreOverwrites(embed: Embedder, name: string, collections: map<string, Collection>,
                        papers: seq<Record>, fault: Option<Error>)
    requires papers != [] && StoreOutcome(embed, name, collections, papers, fault).0.Success?
    ensures var after := StoreOutcome(embed, name, collections, papers, fault).1;
      && name in collections && name in after
      && after.Keys == collections.Keys
      && (forall n :: n in collections && n != name ==> after[n] == collections[n])
      && after[name].params == collections[name].params
      && (forall id :: id in after[name].points <==> id in collections[name].points || 0 <= id < |papers|)
      && (forall id :: id in collections[name].points && !(0 <= id < |papers|) ==>
            after[name].points[id] == collections[name].points[id])
      && (forall k :: 0 <= k < |papers| ==>
            MakePoint(embed, k, papers[k]).Success?
            && after[name].points[k] == StoredPoint(MakePoint(embed, k, papers[k]).value.vector,
                                                    MakePoint(embed, k, papers[k]).value.payload))
  {
    var points := BuildPoints(embed, papers).value;
    BuildPointsIds(embed, papers);
    forall k | 0 <= k < |papers| ensures MakePoint(embed, k, papers[k]) == Success(points[k]) {
      assert PointMaker(embed)(k, papers[k]) == Success(points[k]);
    }
    var old_ := collections[name].points;
    var new_ := Upserted(old_, points);
    assert StoreOutcome(embed, name, collections, papers, fault).1 == collections[name := collections[name].(points := new_)];
    UpsertedKeys(old_, points);
    forall id ensures id in new_ <==> id in old_ || 0 <= id < |papers| {
      if 0 <= id < |papers| {
        assert points[id] in points;
      }
    }
    forall id | id in old_ && !(0 <= id < |papers|) ensures new_[id] == old_[id] {
      UpsertedUntouched(old_, points, id);
    }
    forall k | 0 <= k < |papers|
      ensures MakePoint(embed, k, papers[k]).Success?
      ensures new_[k] == StoredPoint(MakePoint(embed, k, papers[k]).value.vector, MakePoint(embed, k, papers[k]).value.payload)
    {
      UpsertedLastWins(old_, points, k);
    }
  }

  // ---- search_papers ----

  /** The record built for one hit: the seven payload fields, read in order
      (the first missing one raises `KeyError`), and the hit's score. */
  function HitRecord(hit: ScoredPoint): Result<Record, Error> {
    match Project(hit.payload, PaperFields)
    case Failure(e) => Failure(e)
    case Success(fields) => Success(fields[ScoreKey := Float(hit.score)])
  }

  function HitMaker(): (nat, ScoredPoint) -> Result<Record, Error> {
    (i: nat, hit: ScoredPoint) => HitRecord(hit)
  }

  /** `search_papers`: the embedding of the query is computed outside the
      `try`, so its failure propagates; a failing search or a hit without one
      of the seven fields is swallowed and gives `[]`. */
  function SearchOutcome(embed: Embedder, name: string, server: SearchService,
                         collections: map<string, Collection>, query: string, limit: int): Result<seq<Record>, Error>
  {
    match embed(query)
    case Failure(e) => Failure(e)
    case Success(v) =>
      match server(collections, SearchRequest(name, v, limit))
      case Failure(_) => Success([])
      case Success(hits) =>
        match MapResults(HitMaker(), hits)
        case Failure(_) => Success([])
        case Success(papers) => Success(papers)
  }

  /** A hit gives a record exactly when its payload holds the seven fields. */
  lemma HitRecordDefined(hit: ScoredPoint)
    ensures HitRecord(hit).Success? <==> forall k :: k in PaperKeys ==> k in hit.payload
    ensures HitRecord(hit).Failure? ==> HitRecord(hit).error.KeyError? && HitRecord(hit).error.key in PaperKeys
  {
    PaperFieldsKeys();
  }

  /** A hit record has exactly the seven paper keys and the score key, with
      the payload's values and the hit's score. */
  lemma HitRecordFields(hit: ScoredPoint)
    requires HitRecord(hit).Success?
    ensures var r := HitRecord(hit).value;
      && r.Keys == PaperKeys + {ScoreKey}
      && (forall k :: k in PaperKeys ==> r[k] == hit.payload[k])
      && r[ScoreKey] == Float(hit.score)
  {
    var fields := Project(hit.payload, PaperFields).value;
    assert HitRecord(hit).value == fields[ScoreKey := Float(hit.score)];
    PaperFieldsKeys();
    ScoreKeyFresh();
    AddFreshKey(fields, ScoreKey, Float(hit.score));
  }

  /** Adding a key a dict does not hold keeps every other entry. */
  lemma AddFreshKey(m: Record, key: string, v: Value)
    requires key !in m
    ensures m[key := v].Keys == m.Keys + {key}
    ensures forall k :: k in m ==> m[key := v][k] == m[k]
  {
  }

  /** Only the embedder can make the search raise. The server is asked for
      `limit` hits of the query's embedding; a failing server or a hit missing
      a field gives `[]`; otherwise there is one record per hit, in hit order. */
  lemma SearchOutcomeResult(embed: Embedder, name: string, server: SearchService,
                            collections: map<string, Collection>, query: string, limit: int)
    ensures var r := SearchOutcome(embed, name, server, collections, query, limit);
      && (r.Failure? <==> embed(query).Failure?)
      && (r.Failure? ==> r.error == embed(query).error)
      && (r.Success? ==>
            var hits := server(collections, SearchRequest(name, embed(query).value, limit));
            && (hits.Failure? ==> r.value == [])
            && (hits.Success? && (exists k :: 0 <= k < |hits.value| && HitRecord(hits.value[k]).Failure?) ==>
                  r.value == [])
            && (hits.Success? && (forall k :: 0 <= k < |hits.value| ==> HitRecord(hits.value[k]).Success?) ==>
                  |r.value| == |hits.value|
                  && forall k :: 0 <= k < |hits.value| ==> r.value[k] == HitRecord(hits.value[k]).value))
  {
    var r := SearchOutcome(embed, name, server, collections, query, limit);
    if embed(query).Success? {
      var hits := server(collections, SearchRequest(name, embed(query).value, limit));
      if hits.Success? {
        var m := MapResults(HitMaker(), hits.value);
        if m.Success? {
          forall k | 0 <= k < |hits.value| ensures r.value[k] == HitRecord(hits.value[k]).value {
            assert HitMaker()(k, hits.value[k]) == Success(m.value[k]);
          }
        } else {
          var i :| 0 <= i < |hits.value| && HitMaker()(i, hits.value[i]).Failure?;
        }
      }
    }
  }

  // ---- the store object ----

  class PaperStorage {
    const client: Client
    const embed: Embedder
    const collectionName: string

    /** The fields `__init__` sets; the config guard and the collection set-up
        are `NewPaperStorage`. */
    constructor (client: Client, embed: Embedder)
      ensures this.client == client && this.embed == embed && collectionName == CollectionName
    {
      this.client := client;
      this.embed := embed;
      collectionName := CollectionName;
    }

    /** `_create_collection`. */
    method CreateCollection(listFault: Option<Error>, createFault: Option<Error>) returns (r: Outcome<Error>)
      modifies client
      ensures var e := EnsureCollection(old(client.collections), collectionName, embed, listFault, createFault);
        && (r.Pass? <==> e.Success?)
        && (r.Fail? ==> r.error == e.error && client.collections == old(client.collections))
        && (r.Pass? ==> client.collections == e.value)
    {
      var listed := client.GetCollections(listFault);
      if listed.Failure? {
        return Fail(listed.error);
      }
      if collectionName !in listed.value {
        var probe := embed(ProbeText);
        if probe.Failure? {
          return Fail(probe.error);
        }
        var created := client.CreateCollection(collectionName, VectorParams(|probe.value|, Cosine), createFault);
        if created.Fail? {
          return Fail(created.error);
        }
      }
      return Pass;
    }

    /** The loop of `store_papers`: one point per paper, with its position as
        id, or the first exception. */
    method MakePoints(papers: seq<Record>) returns (r: Result<seq<PointStruct>, Error>)
      ensures r == BuildPoints(embed, papers)
    {
      var points: seq<PointStruct> := [];
      var i := 0;
      while i < |papers|
        invariant 0 <= i <= |papers|
        invariant MapResults(PointMaker(embed), papers[..i]) == Success(points)
      {
        var point := MakePoint(embed, i, papers[i]);
        if point.Failure? {
          MapResultsFailsAt(PointMaker(embed), papers, i);
          return Failure(point.error);
        }
        MapResultsStep(PointMaker(embed), papers, i, points, point.value);
        points := points + [point.value];
        i := i + 1;
      }
      assert papers[..i] == papers;
      return Success(points);
    }

    /** `store_papers`: the points are built, then upserted in one call. */
    method StorePapers(papers: seq<Record>, fault: Option<Error>) returns (r: Result<nat, Error>)
      modifies client
      ensures (r, client.collections) == StoreOutcome(embed, collectionName, old(client.collections), papers, fault)
    {
      if papers == [] {
        return Success(0);
      }
      var points := MakePoints(papers);
      if points.Failure? {
        return Failure(points.error);
      }
      var upserted := client.Upsert(collectionName, points.value, fault);
      if upserted.Fail? {
        return Failure(upserted.error);
      }
      return Success(|papers|);
    }

    /** `search_papers`: the hits are turned into records in a loop. */
    method SearchPapers(query: string, server: SearchService, limit: int := 5) returns (r: Result<seq<Record>, Error>)
      ensures r == SearchOutcome(embed, collectionName, server, client.collections, query, limit)
    {
      var queryEmbedding := embed(query);
      if queryEmbedding.Failure? {
        return Failure(queryEmbedding.error);
      }
      var results := server(client.collections, SearchRequest(collectionName, queryEmbedding.value, limit));
      if results.Failure? {
        return Success([]);
      }
      var hits := results.value;
      var papers: seq<Record> := [];
      var i := 0;
      while i < |hits|
        invariant 0 <= i <= |hits|
        invariant MapResults(HitMaker(), hits[..i]) == Success(papers)
      {
        var paper := HitRecord(hits[i]);
        if paper.Failure? {
          MapResultsFailsAt(HitMaker(), hits, i);
          return Success([]);
        }
        MapResultsStep(HitMaker(), hits, i, papers, paper.value);
        papers := papers + [paper.value];
        i := i + 1;
      }
      assert hits[..i] == hits;
      return Success(papers);
    }
  }

  /** `PaperStorage()`: the configuration is checked before any client is
      used; then the Qdrant client and the sentence embedder are built (either
      may raise `buildFault`), then the collection is set up. Every exception
      is raised to the caller. */
  method NewPaperStorage(config: Configuration.Config, client: Client, embed: Embedder,
                         buildFault: Option<Error>, listFault: Option<Error>, createFault: Option<Error>)
    returns (r: Result<PaperStorage, Error>)
    modifies client
    ensures !config.IsConfigured() ==> r == Failure(ValueError(NotConfigured)) && client.collections == old(client.collections)
    ensures config.IsConfigured() && buildFault.Some? ==>
      r == Failure(buildFault.value) && client.collections == old(client.collections)
    ensures config.IsConfigured() && buildFault.None? ==>
      var e := EnsureCollection(old(client.collections), CollectionName, embed, listFault, createFault);
      && (r.Success? <==> e.Success?)
      && (r.Failure? ==> r.error == e.error && client.collections == old(client.collections))
      && (r.Success? ==> fresh(r.value) && r.value.client == client && r.value.embed == embed
                         && r.value.collectionName == CollectionName && client.collections == e.value)
  {
    if !config.IsConfigured() {
      return Failure(ValueError(NotConfigured));
    }
    if buildFault.Some? {
      return Failure(buildFault.value);
    }
    var storage := new PaperStorage(client, embed);
    var created := storage.CreateCollection(listFault, createFault);
    if created.Fail? {
      return Failure(created.error);
    }
    return Success(storage);
  }
}
