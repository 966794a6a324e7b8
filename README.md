# PaperScope core, modelled in Dafny

PaperScope fetches arXiv papers and stores them in a Qdrant vector collection. It then answers questions about them with a language model, using the nearest papers as context. This project models the deterministic logic between those three services and proves its properties:

- `Retrieval` (`retrieval.dfy`): `fetch_papers`. It normalises every arXiv result into a seven-field paper record: the author names, the `arxiv_id` taken from the last `/` segment of the entry id, and the ISO publication date or `None`.
- `Utils` (`utils.dfy`): `clean_summary`, which is `" ".join(summary.split())`.
- `Configuration` (`config.dfy`): the `Config` object, `load_from_env` and `is_configured`.
- `Qdrant` (`qdrant.dfy`): the part of the vector-store client that the paper store uses.
  - The collections are a map from name to collection.
  - A collection is a map from integer id to stored point.
  - `upsert` is a map override.
- `Storage` (`storage.dfy`): `PaperStorage`.
  - The configuration guard.
  - `_create_collection`, which creates the collection only when its name is absent.
  - `store_papers`: point ids are the positions 0..n-1, the payload is the seven fields, and the call returns the count.
  - `search_papers`: one record per hit plus its score, and failures become `[]`.
- `QaSystem` (`qa_system.dfy`): `QASystem`.
  - The configuration guard.
  - `_format_context`: numbered blocks joined by blank lines, and `"N/A"` for a missing key.
  - The three outcomes of `answer_question`.
  - `get_context_for_question`.
- `PyText`, `Records` and `Wrappers` hold the shared pieces:
  - Python's `str.join`, `str.split(sep)`, `isspace` and `str(int)`;
  - the paper dictionaries, as `map<string, Value>`;
  - the exceptions, as a `Result` value.

## How the services are modelled

Every external service is a parameter, and each one may fail.

- **Embedder:** a function from text to a vector or an error.
- **arXiv client:** a function from the client settings and the search request to the results it yields, plus an optional exception raised after them.
- **Qdrant server state:** the `Qdrant.Client` object.
- **Failure of a Qdrant call:** a `fault: Option<Error>` parameter.
- **Qdrant search:** a function from the collections and the request to the hits.
- **Language model:** a function from the prompt to a reply or an error.
- **Building a client:** constructing the Qdrant client, the sentence embedder or the chat model may raise. Each is a `fault: Option<Error>` parameter of the constructor that builds it.

Vectors and scores are opaque. No similarity is computed. A score is kept as the text `str()` gives for it.

The retrieval-and-answer functions `AnswerOutcome` and `ContextOutcome` take retrieval as an abstract `Searcher`. The `QASystem` methods instantiate that searcher with the paper store's own search over the current collections (`StoreSearcher`).

The deterministic loops are `while` loops in methods: `fetch_papers`, the two loops in `PaperStorage`, and `_format_context`. Each method is proved equal to a specification function, and the properties are lemmas about those functions. The objects that the source updates in place are classes: `Config`, the Qdrant client, `PaperStorage` and `QASystem`.

## Model

| member | source | states |
|---|---|---|
| Wrappers.MapResults | storage.py:53-72 | A loop that appends one result per element succeeds exactly when every element succeeds. It then gives the results in order. Otherwise it gives the first failure, and all earlier elements succeeded. |
| Wrappers.MapResultsStep | storage.py:54-72 | One more iteration appends the next result to the results so far. |
| Wrappers.MapResultsFailsAt | storage.py:54-57 | If element i is the first to fail, its exception is the loop's outcome. |
| Wrappers.EnumeratedSpec | qa_system.py:65-75 | `enumerate(xs, start=1)` in a loop gives one result per element, in order. The k-th result is computed with number k+1. |
| Wrappers.EnumeratedSnoc | qa_system.py:65-75 | One more element adds one more result, numbered after the rest. |
| PyText.Split | src/paperscope/retrieval.py:19 | `str.split(sep)` gives at least one piece. No piece contains the separator. There is a single piece exactly when the separator is absent. |
| PyText.SplitJoin | src/paperscope/retrieval.py:19 | Joining the pieces with the separator rebuilds the string. |
| PyText.SplitLastSuffix | src/paperscope/retrieval.py:19 | The last piece is a suffix of the string. When the separator occurs, a separator precedes that suffix. |
| PyText.NatToString | qa_system.py:65-67 | `str(i)` of a natural number is a non-empty string of decimal digits. It starts with `0` only for the number 0, so there are no leading zeros. |
| PyText.ParseNatToString | qa_system.py:65-67 | The decimal text of a number reads back as that number. |
| PyText.JoinSnoc | qa_system.py:77 | Joining one more part appends the separator and the part. |
| Records.ErrorText | qa_system.py:52-57 | Definition of `str(e)` for the modelled exceptions: a `KeyError` shows its key quoted, the others their message. Its use is stated by `QaSystem.AnswerOutcomes`. |
| Records.Render | qa_system.py:66-73 | Definition of `str(v)` as an f-string renders a record value. Its use is stated by `QaSystem.BlockShowsFields`. |
| Records.Project | storage.py:62-70 | The payload dict succeeds exactly when every listed key is present, and then holds exactly those keys with the input's values. Otherwise it raises `KeyError` for the first missing key. |
| Records.PaperRecordShape | src/paperscope/retrieval.py:15-23 | The paper dict literal has exactly the seven paper keys, each holding its value. |
| Utils.Words | src/paperscope/utils.py:8 | Definition of `summary.split()` as the maximal whitespace-free runs. Its properties are `WordsAreWords`, `WordsSplitAtSpace`, `WordsKeepText`, `WordsOfJoin` and `WordsOfBlank`. |
| Utils.CleanSummary | src/paperscope/utils.py:7-8 | Definition of `clean_summary`. Its properties are the `CleanSummary*` lemmas below. |
| Utils.WordsAreWords | src/paperscope/utils.py:8 | `str.split()` yields only non-empty pieces without whitespace. |
| Utils.WordsSplitAtSpace | src/paperscope/utils.py:8 | Any whitespace character separates words: the words of `a + c + b` are the words of `a` followed by the words of `b`. |
| Utils.WordsKeepText | src/paperscope/utils.py:8 | `str.split()` drops nothing but whitespace: the words, concatenated, are exactly the input's non-space characters, in order. |
| Utils.JoinWordsClean | src/paperscope/utils.py:8 | Joining words with single spaces gives a clean string that starts and ends with a non-space. |
| Utils.WordsOfJoin | src/paperscope/utils.py:8 | Splitting a space-join of words gives back the same words. |
| Utils.CleanSummaryShape | src/paperscope/utils.py:8 | The output has no whitespace at either end and never two spaces in a row. Its only whitespace is single spaces between non-spaces. |
| Utils.CleanSummaryKeepsWords | src/paperscope/utils.py:8 | The whitespace-separated words of the output are the words of the input, in order. |
| Utils.CleanSummaryKeepsText | src/paperscope/utils.py:8 | The output's non-space characters are exactly the input's, in order. |
| Utils.CleanSummaryIdempotent | src/paperscope/utils.py:8 | Cleaning a cleaned summary changes nothing. |
| Utils.CleanSummaryEmpty | src/paperscope/utils.py:8 | The output is `""` exactly when the input is empty or all whitespace. |
| Utils.CleanSummaryFixedPoints | src/paperscope/utils.py:8 | The strings left unchanged are exactly the clean ones. |
| Configuration.Getenv | src/paperscope/config.py:14-16 | Definition of the `os.getenv` stand-in: the variable's value, or `None` when it is unset. Its use is stated by `Config.LoadFromEnv` and `LoadConfig`. |
| Configuration.Config.constructor | src/paperscope/config.py:9-11 | A default `Config` has all three fields `None` and is not configured. |
| Configuration.Config.LoadFromEnv | src/paperscope/config.py:13-16 | All three fields are overwritten from the environment. An unset variable becomes `None`. |
| Configuration.Config.IsConfigured | src/paperscope/config.py:18-19 | It holds exactly when all three fields are present and non-empty. It reads and never writes the fields. |
| Configuration.LoadConfig | src/paperscope/config.py:21-22 | The module-level config is fresh, loaded from the environment, and configured exactly when the three variables are set and non-empty. |
| Retrieval.ArxivId | src/paperscope/retrieval.py:19 | `arxiv_id` has no `/`, is a suffix of `entry_id`, is preceded by `/` when `entry_id` has one, and equals `entry_id` when it has none. |
| Retrieval.ArxivIdExample | src/paperscope/retrieval.py:19 | `".../abs/2301.01234v2"` gives `"2301.01234v2"`. |
| Retrieval.AuthorNames | src/paperscope/retrieval.py:17 | The author list has the same length and order as the result's authors, holding their names. |
| Retrieval.IsoFormat | src/paperscope/retrieval.py:20 | Definition of `isoformat()` for a UTC timestamp with whole seconds. Its property is `IsoFormatRoundTrip`. |
| Retrieval.IsoFormatRoundTrip | src/paperscope/retrieval.py:20 | The ISO text of a valid UTC timestamp is 25 characters long and reads back as the same date and time. |
| Retrieval.PublishedValue | src/paperscope/retrieval.py:20 | `published` is `None` exactly when the date is absent. For a valid date it is a 25-character text that reads back as that date. |
| Retrieval.Normalize | src/paperscope/retrieval.py:15-23 | Definition of the record built from one result. Its property is `NormalizeShape`. |
| Retrieval.NormalizeShape | src/paperscope/retrieval.py:15-23 | A record has exactly the seven paper keys: title, author names, summary, arxiv id, published, pdf url and category. |
| Retrieval.FetchPapers | src/paperscope/retrieval.py:4-25 | The client gets settings (100, 3, 3) and a newest-first search of `max_results`. The call gives one record per yielded result, in order, or the client's exception. |
| Qdrant.Upserted | storage.py:75-78 | Definition of applying an upsert batch to a collection's points, point by point. Its properties are `UpsertedKeys`, `UpsertedUntouched` and `UpsertedLastWins`. |
| Qdrant.UpsertResult | storage.py:75-78 | Definition of the server's answer to an upsert: the injected fault, an error for a missing collection, or the collection with the batch upserted. Its use is stated by `Qdrant.Client.Upsert` and `Storage.StoreOutcomeResult`. |
| Qdrant.Client.constructor | storage.py:14-17 | The client starts with the given collections. |
| Qdrant.UpsertedKeys | storage.py:75-78 | An upsert adds exactly the ids of the batch to the collection's ids. |
| Qdrant.UpsertedUntouched | storage.py:75-78 | An id that the batch does not mention keeps its stored point. |
| Qdrant.UpsertedLastWins | storage.py:75-78 | A batch id holds the vector and payload of the last batch point with that id. |
| Qdrant.Client.GetCollections | storage.py:27-28 | Definition of the `get_collections()` stand-in: the names of the existing collections, or the injected fault. Its use is stated by `Storage.PaperStorage.CreateCollection` and `Storage.EnsureCollectionEffect`. |
| Qdrant.Client.CreateCollection | storage.py:34-40 | It adds an empty collection with the given parameters, or fails. A failed call is taken to change nothing (see Left out). |
| Qdrant.Client.Upsert | storage.py:75-78 | It applies the batch to the named collection, or fails. A missing collection is an error. A failed call is taken to change nothing (see Left out). |
| Storage.EnsureCollection | storage.py:25-47 | Definition of the collections after `_create_collection`, or its exception. Its properties are `EnsureCollectionEffect` and `EnsureCollectionIdempotent`. |
| Storage.EnsureCollectionEffect | storage.py:25-47 | An existing collection is left alone. A missing one is created empty, with cosine distance and the probe embedding's size. Other collections are unchanged. It fails exactly on a failing listing, probe or create call. |
| Storage.EnsureCollectionIdempotent | storage.py:27-43 | After a successful call, a second call changes nothing. |
| Storage.MakePoint | storage.py:55-71 | Definition of the point built for one paper. Its property is `MakePointShape`. |
| Storage.MakePointShape | storage.py:55-70 | A point exists exactly when the seven fields are present and the embedding of `title + " " + summary` succeeds. Its id is the position, its vector is that embedding, and its payload is the seven fields, copied. |
| Storage.BuildPointsSpec | storage.py:53-72 | The points list is one point per paper, in input order. Otherwise it is the exception of the first paper whose point fails to build; every earlier paper built. |
| Storage.BuildPointsIds | storage.py:54-60 | For n papers the point ids are 0..n-1, in order. |
| Storage.StoreOutcome | storage.py:49-83 | Definition of what `store_papers` returns and the collections afterwards. Its properties are `StoreOutcomeResult` and `StoreOverwrites`. |
| Storage.StoreOutcomeResult | storage.py:49-83 | No papers: it returns 0 and upserts nothing. Success returns `len(papers)`. An exception while building the points leaves the collections unchanged. So does a failed upsert, on the assumption that a failed upsert writes nothing (see Left out). Success happens exactly when every point builds and the upsert goes through. Otherwise the first failing paper's exception is raised, or, when every point builds, the upsert's own exception is re-raised. |
| Storage.StoreOverwrites | storage.py:74-80 | A successful store writes ids 0..n-1, each with its paper's point. Every other id and every other collection is untouched. |
| Storage.HitRecord | storage.py:97-106 | Definition of the record built for one hit. Its properties are `HitRecordDefined` and `HitRecordFields`. |
| Storage.HitRecordDefined | storage.py:97-104 | A hit gives a record exactly when its payload holds the seven fields. Otherwise the lookup raises `KeyError` for one of the seven keys. |
| Storage.HitRecordFields | storage.py:97-106 | A hit record has the seven paper keys plus `similarity_score`. The fields hold the payload's values and the score holds the hit's score. |
| Storage.SearchOutcome | storage.py:85-112 | Definition of what `search_papers` returns. Its property is `SearchOutcomeResult`. |
| Storage.SearchOutcomeResult | storage.py:85-112 | Only a failing query embedding raises. The server is asked for `limit` hits. A failing server, or a hit missing a field, gives `[]`. Otherwise there is one record per hit, in order. |
| Storage.PaperStorage.constructor | storage.py:14-21 | The store keeps its client and embedder and uses the collection `paperscope_papers`. |
| Storage.PaperStorage.CreateCollection | storage.py:25-47 | The new collection map is the specified `_create_collection` outcome. On an exception it is unchanged, on the assumption that a failed create writes nothing. |
| Storage.PaperStorage.MakePoints | storage.py:53-72 | The point-building loop gives exactly the specified points list, or its first exception. |
| Storage.PaperStorage.StorePapers | storage.py:49-83 | The result and the new collections are the specified `store_papers` outcome. |
| Storage.PaperStorage.SearchPapers | storage.py:85-112 | The result is the specified `search_papers` outcome over the current collections. |
| Storage.NewPaperStorage | storage.py:10-23 | When not configured, it raises `ValueError` before the collections are touched. An exception from building the Qdrant client or the embedder is raised before the collections are touched. Otherwise it sets up the collection, or raises that call's exception with nothing changed, on the assumption that a failed create writes nothing. |
| QaSystem.Prompt | qa_system.py:18-24 | Definition of `prompt_template.format(...)`. Its property is `PromptPlaces`. |
| QaSystem.PromptPlaces | qa_system.py:18-24 | The prompt holds the context right after its fixed head, and the question right before its fixed tail. |
| QaSystem.Block | qa_system.py:66-73 | Definition of the context block of one paper. Its properties are `BlockNumber`, `BlockNumbersDistinct` and `BlockShowsFields`. |
| QaSystem.BlockShowsFields | qa_system.py:66-73 | Each of the five displayed fields occurs in a block after its caption and before a comma. It shows `N/A` when the paper lacks the key, and the value's `str()` otherwise. |
| QaSystem.BlockNumber | qa_system.py:66-67 | Block i starts with its header, followed by the decimal digits of i. |
| QaSystem.BlockNumbersDistinct | qa_system.py:65-67 | Blocks with different numbers differ. |
| QaSystem.BlocksNumbered | qa_system.py:64-75 | There is one block per paper, in order, and the k-th is numbered k+1. |
| QaSystem.ContextText | qa_system.py:60-77 | Definition of what `_format_context` returns. Its properties are `ContextShape` and `BlocksNumbered`. |
| QaSystem.ContextShape | qa_system.py:60-77 | No papers give `"No papers"`. One paper gives its block. Each further paper adds `"\n\n"` and its numbered block. |
| QaSystem.FormatContext | qa_system.py:60-77 | The loop returns the specified context text. |
| QaSystem.AnswerOutcome | qa_system.py:26-58 | Definition of what `answer_question` returns for a retrieval function and a model. Its property is `AnswerOutcomes`. |
| QaSystem.AnswerOutcomes | qa_system.py:26-58 | No papers give the fixed empty answer. Success gives the model's answer with `source` the retrieved list and `context_used == len(source)`. Any retrieval or model exception gives the fixed error answer with `source == []`, `context_used == 0` and `error` the exception's text. |
| QaSystem.ContextOutcome | qa_system.py:79-84 | Definition of what `get_context_for_question` returns. Its property is `ContextMatchesAnswer`. |
| QaSystem.ContextMatchesAnswer | qa_system.py:79-84 | `get_context_for_question` never raises. It gives `[]` on a retrieval exception, and it gives the source of every error-free answer. |
| QaSystem.QASystem.constructor | qa_system.py:12-16 | The system keeps its store and model and uses `llama-3.1-8b-instant`. |
| QaSystem.QASystem.AnswerQuestion | qa_system.py:26-58 | Answering through the paper store is the specified outcome. |
| QaSystem.QASystem.GetContextForQuestion | qa_system.py:79-84 | Context through the paper store is the specified outcome. |
| QaSystem.NewQASystem | qa_system.py:8-16 | When not configured, it raises `ValueError("Config is not configured")` before the store is built. Otherwise it builds the paper store or raises its exception. It then builds the chat model: a `ChatGroq(...)` exception is raised, but a collection already created stays. It succeeds exactly when the store and the model are both built. A new system keeps the given model and store, uses `llama-3.1-8b-instant`, and its store uses the collection `paperscope_papers` that was set up. |

## Left out

- `split_text`: it only constructs a LangChain splitter object.
- `get_collection_info` passes remote metadata through and has no logic of its own.
- `test_connection` is a network call whose result is opaque.
- `server/app.py`, `src/paperscope/rag.py` and `src/paperscope/pipeline.py` are not part of this model.
- The embedding model, Qdrant's indexing, cosine ranking and the language model are external services. They are abstract functions, so vectors, scores and replies are opaque.
- `QdrantClient(url=..., api_key=...)`: the connection is a parameter. The URL and key are not modelled.
- `load_dotenv()`: the environment is a parameter.
- arXiv client paging, delays and retries are inside the client. Only the settings it is given are recorded.
- All `print` logging is left out.
- Concurrency and races on shared point ids are left out.
- Records.Render: a list of strings renders as `['a', 'b']`, without Python's escaping of quotes or backslashes inside the items.
- Retrieval.IsoFormat: publication dates are UTC with whole seconds. Microseconds and other offsets are not rendered.
- Qdrant.Client.Upsert: upserting into a collection that does not exist is taken to be an error. The server's exact message is not modelled.
- Qdrant.Client.Upsert: a failed call is taken to have written nothing. A real server may have applied part or all of the batch before failing, because a batch upsert is best-effort and a call can time out after the write. `Storage.StoreOutcomeResult` and `Storage.PaperStorage.StorePapers` keep the collections unchanged on an upsert failure only under this assumption.
- Qdrant.Client.CreateCollection: a failed call is taken to have written nothing, although a real server may have created the collection before the error reached the client. `Storage.PaperStorage.CreateCollection`, `Storage.NewPaperStorage` and `QaSystem.NewQASystem` keep the collections unchanged on a failed create only under this assumption.
- `answer_question` can also raise while formatting or filling the template. In this model those steps cannot fail, so only retrieval and model exceptions reach the error answer.
- `PaperStorage()` checks all three settings, including the Groq key, although its message names only the Qdrant ones. The model keeps the check and the message exactly as written.
