/** The dictionaries the core passes around (paper records, point payloads,
    search hits), the exceptions it raises, and Python's `str()` of the
    values they hold. */
module Records {
  import opened Wrappers
  import PyText

  /** A value held under a key of a paper record. Scores are floats the
      model never computes with, so a float is kept as the text `str()`
      gives for it. */
  datatype Value =
    | Str(s: string)
    | StrList(items: seq<string>)
    | Null
    | Float(repr: string)

  /** A Python `dict` with string keys. */
  type Record = map<string, Value>

  /** The exceptions the modelled code raises or lets through. */
  datatype Error =
    | KeyError(key: string)        // `d[key]` on a dict without that key
    | ValueError(message: string)  // raised by the configuration guards
    | ServiceError(message: string) // raised by an external service or library

  /** `str(e)`: a `KeyError` shows its key quoted; the others their message. */
  function ErrorText(e: Error): string {
    match e
    case KeyError(k) => "'" + k + "'"
    case ValueError(m) => m
    case ServiceError(m) => m
  }

  /** The repr of a string inside a list's `str()`. */
  function Quote(s: string): string {
    "'" + s + "'"
  }

  function QuoteAll(items: seq<string>): (qs: seq<string>)
    ensures |qs| == |items| && forall k :: 0 <= k < |items| ==> qs[k] == Quote(items[k])
  {
    if items == [] then [] else [Quote(items[0])] + QuoteAll(items[1..])
  }

  /** `str(v)`, as an f-string renders the value. */
  function Render(v: Value): string {
    match v
    case Str(s) => s
    case StrList(items) => "[" + PyText.Join(QuoteAll(items), ", ") + "]"
    case Null => "None"
    case Float(t) => t
  }

  /** The seven fields of a paper record, in the order the code reads them. */
  const PaperFields: seq<string> :=
    ["title", "authors", "summary", "arxiv_id", "published", "pdf_url", "primary_category"]

  /** The key set of a paper record. */
  const PaperKeys: set<string> :=
    {"title", "authors", "summary", "arxiv_id", "published", "pdf_url", "primary_category"}

  /** The extra key a search hit carries. */
  const ScoreKey := "similarity_score"

  /** `{k: r[k] for k in keys}` written out key by key, as the code does:
      the first key missing from `r` raises `KeyError`. */
  function Project(r: Record, keys: seq<string>): (p: Result<Record, Error>)
    ensures p.Success? <==> forall k :: k in keys ==> k in r
    ensures p.Success? ==> p.value.Keys == (set k | k in keys) && forall k :: k in keys ==> p.value[k] == r[k]
    ensures p.Failure? ==> exists i :: 0 <= i < |keys| && keys[i] !in r && p.error == KeyError(keys[i])
                                    && forall j :: 0 <= j < i ==> keys[j] in r
    decreases |keys|
  {
    if keys == [] then Success(map[])
    else if keys[0] !in r then Failure(KeyError(keys[0]))
    else
      match Project(r, keys[1..])
      case Failure(e) => Failure(e)
      case Success(m) => Success(m[keys[0] := r[keys[0]]])
  }

  /** The dict literal with the seven paper fields. */
  function PaperRecord(title: Value, authors: Value, summary: Value, arxivId: Value,
                       published: Value, pdfUrl: Value, primaryCategory: Value): Record
  {
    map["title" := title, "authors" := authors, "summary" := summary, "arxiv_id" := arxivId,
        "published" := published, "pdf_url" := pdfUrl, "primary_category" := primaryCategory]
  }

  /** The literal has exactly the seven paper keys, each holding its value. */
  lemma PaperRecordShape(title: Value, authors: Value, summary: Value, arxivId: Value,
                         published: Value, pdfUrl: Value, primaryCategory: Value)
    ensures var p := PaperRecord(title, authors, summary, arxivId, published, pdfUrl, primaryCategory);
      && p.Keys == PaperKeys
      && p["title"] == title && p["authors"] == authors && p["summary"] == summary
      && p["arxiv_id"] == arxivId && p["published"] == published
      && p["pdf_url"] == pdfUrl && p["primary_category"] == primaryCategory
  {
    KeyNamesDistinct();
  }

  /** The key names that have equal lengths differ in their first letter;
      all other pairs differ in length. */
  lemma KeyNamesDistinct()
    ensures "authors" != "summary" && "authors" != "pdf_url" && "summary" != "pdf_url"
    ensures "primary_category" != ScoreKey
  {
    assert "authors"[0] == 'a' && "summary"[0] == 's' && "pdf_url"[0] == 'p';
    assert "primary_category"[0] == 'p' && ScoreKey[0] == 's';
  }

  /** The score key is not a paper field, so adding it keeps the fields. */
  lemma ScoreKeyFresh()
    ensures ScoreKey !in PaperKeys
  {
    KeyNamesDistinct();
  }

  lemma PaperFieldsKeys()
    ensures (set k | k in PaperFields) == PaperKeys
    ensures forall k :: k in PaperFields <==> k in PaperKeys
  {
  }
}
