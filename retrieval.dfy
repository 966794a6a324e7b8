/** The paper fetcher: `fetch_papers` runs an arXiv search and normalises
    every result into a seven-field paper record. The arXiv client itself is
    abstract: it is a function from the search request to the feed it yields. */
module Retrieval {
  import opened Wrappers
  import opened Records
  import opened PyText

  datatype Author = Author(name: string)

  /** A timezone-aware UTC timestamp with whole seconds, as the arXiv client
      reports publication dates. */
  datatype DateTime = DateTime(year: nat, month: nat, day: nat, hour: nat, minute: nat, second: nat)

  predicate ValidDateTime(d: DateTime) {
    && 1 <= d.year <= 9999 && 1 <= d.month <= 12 && 1 <= d.day <= 31
    && d.hour < 24 && d.minute < 60 && d.second < 60
  }

  /** One search result as the arXiv client returns it. */
  datatype ArxivResult = ArxivResult(
    title: string,
    authors: seq<Author>,
    summary: string,
    entryId: string,
    published: Option<DateTime>,
    pdfUrl: Option<string>,
    primaryCategory: string)

  /** `arxiv.Client(page_size=100, delay_seconds=3, num_retries=3)`. */
  datatype ClientSettings = ClientSettings(pageSize: nat, delaySeconds: nat, numRetries: nat)
  const Client := ClientSettings(100, 3, 3)

  datatype SortCriterion = Relevance | LastUpdatedDate | SubmittedDate
  datatype SortOrder = Ascending | Descending

  /** `arxiv.Search(...)`: the request handed to the client. */
  datatype Search = Search(query: string, maxResults: int, sortBy: SortCriterion, sortOrder: SortOrder)

  /** What iterating `client.results(search)` does: it yields `items` and then
      either stops (`failure == None`) or raises `failure`. */
  datatype Feed = Feed(items: seq<ArxivResult>, failure: Option<Error>)

  /** The arXiv service, seen through the client. */
  type ArxivService = (ClientSettings, Search) -> Feed

  // ---- the per-result normalisation ----

  /** `result.entry_id.split("/")[-1]`. */
  function ArxivId(entryId: string): (id: string)
    ensures '/' !in id
    ensures |id| <= |entryId| && entryId[|entryId| - |id|..] == id
    ensures '/' !in entryId ==> id == entryId
    ensures '/' in entryId ==> |id| < |entryId| && entryId[|entryId| - |id| - 1] == '/'
  {
    var pieces := Split(entryId, '/');
    SplitLastSuffix(entryId, '/');
    if '/' !in entryId then SplitNoSep(entryId, '/'); pieces[|pieces| - 1]
    else pieces[|pieces| - 1]
  }

  lemma ArxivIdExample()
    ensures ArxivId("http://arxiv.org/abs/2301.01234v2") == "2301.01234v2"
  {
    var p, w := "http://arxiv.org/abs", "2301.01234v2";
    assert "http://arxiv.org/abs/2301.01234v2" == p + ['/'] + w;
    SplitLastAfter(p, '/', w);
  }

  /** `[a.name for a in result.authors]`. */
  function AuthorNames(authors: seq<Author>): (names: seq<string>)
    ensures |names| == |authors|
    ensures forall k :: 0 <= k < |authors| ==> names[k] == authors[k].name
  {
    if authors == [] then [] else [authors[0].name] + AuthorNames(authors[1..])
  }

  /** `"%0*d" % (width, n)`: the last `width` decimal digits of `n`. */
  function Pad(n: nat, width: nat): (r: string)
    ensures |r| == width
  {
    if width == 0 then "" else Pad(n / 10, width - 1) + [Digit(n % 10)]
  }

  function Pow10(k: nat): nat {
    if k == 0 then 1 else 10 * Pow10(k - 1)
  }

  lemma {:induction false} ParsePad(n: nat, width: nat)
    requires n < Pow10(width)
    ensures ParseNat(Pad(n, width)) == n
  {
    if width > 0 {
      var s := Pad(n, width);
      assert s[..|s| - 1] == Pad(n / 10, width - 1);
      ParsePad(n / 10, width - 1);
    }
  }

  /** `datetime.isoformat()` of a UTC timestamp without microseconds. */
  function IsoFormat(d: DateTime): string {
    Pad(d.year, 4) + "-" + Pad(d.month, 2) + "-" + Pad(d.day, 2) + "T"
    + Pad(d.hour, 2) + ":" + Pad(d.minute, 2) + ":" + Pad(d.second, 2) + "+00:00"
  }

  /** Reads the date and time fields back from an ISO-8601 text. */
  function ParseIso(s: string): DateTime
    requires |s| >= 19
  {
    DateTime(ParseNat(s[0..4]), ParseNat(s[5..7]), ParseNat(s[8..10]),
             ParseNat(s[11..13]), ParseNat(s[14..16]), ParseNat(s[17..19]))
  }

  /** The ISO text is 25 characters long and loses nothing of the timestamp. */
  lemma IsoFormatRoundTrip(d: DateTime)
    requires ValidDateTime(d)
    ensures |IsoFormat(d)| == 25 && ParseIso(IsoFormat(d)) == d
  {
    var s := IsoFormat(d);
    assert Pow10(2) == 100 && Pow10(4) == 10000;
    assert s[0..4] == Pad(d.year, 4);
    assert s[5..7] == Pad(d.month, 2);
    assert s[8..10] == Pad(d.day, 2);
    assert s[11..13] == Pad(d.hour, 2);
    assert s[14..16] == Pad(d.minute, 2);
    assert s[17..19] == Pad(d.second, 2);
    ParsePad(d.year, 4);
    ParsePad(d.month, 2);
    ParsePad(d.day, 2);
    ParsePad(d.hour, 2);
    ParsePad(d.minute, 2);
    ParsePad(d.second, 2);
  }

  /** `result.published.isoformat() if result.published else None`. */
  function PublishedValue(published: Option<DateTime>): (v: Value)
    ensures v == Null <==> published.None?
    ensures published.Some? && ValidDateTime(published.value) ==>
              v.Str? && |v.s| == 25 && ParseIso(v.s) == published.value
  {
    match published
    case None => Null
    case Some(d) =>
      if ValidDateTime(d) then IsoFormatRoundTrip(d); Str(IsoFormat(d))
      else Str(IsoFormat(d))
  }

  function OptionalStr(s: Option<string>): Value {
    match s
    case None => Null
    case Some(t) => Str(t)
  }

  /** The paper record built from one search result. */
  function Normalize(r: ArxivResult): Record {
    PaperRecord(Str(r.title), StrList(AuthorNames(r.authors)), Str(r.summary), Str(ArxivId(r.entryId)),
                PublishedValue(r.published), OptionalStr(r.pdfUrl), Str(r.primaryCategory))
  }

  /** A normalised record has exactly the seven paper keys, each holding the
      matching attribute of the result. */
  lemma NormalizeShape(r: ArxivResult)
    ensures var p := Normalize(r);
      && p.Keys == PaperKeys
      && p["title"] == Str(r.title) && p["summary"] == Str(r.summary)
      && p["authors"] == StrList(AuthorNames(r.authors))
      && p["arxiv_id"] == Str(ArxivId(r.entryId))
      && p["published"] == PublishedValue(r.published)
      && p["pdf_url"] == OptionalStr(r.pdfUrl)
      && p["primary_category"] == Str(r.primaryCategory)
  {
    PaperRecordShape(Str(r.title), StrList(AuthorNames(r.authors)), Str(r.summary), Str(ArxivId(r.entryId)),
                     PublishedValue(r.published), OptionalStr(r.pdfUrl), Str(r.primaryCategory));
  }

  /** The request `fetch_papers(query, max_results)` hands to the client:
      newest submissions first, at most `max_results` of them. */
  function SearchFor(query: string, maxResults: int): Search {
    Search(query, maxResults, SubmittedDate, Descending)
  }

  /** `fetch_papers`: one record per yielded result, in order, or the error
      the client raised (never a partial list). */
  method FetchPapers(arxiv: ArxivService, query: string, maxResults: int := 5)
    returns (r: Result<seq<Record>, Error>)
    ensures var feed := arxiv(Client, SearchFor(query, maxResults));
      && (r.Failure? <==> feed.failure.Some?)
      && (r.Failure? ==> r.error == feed.failure.value)
      && (r.Success? ==> |r.value| == |feed.items|
                         && forall k :: 0 <= k < |feed.items| ==> r.value[k] == Normalize(feed.items[k]))
  {
    var feed := arxiv(Client, SearchFor(query, maxResults));
    var papers: seq<Record> := [];
    var i := 0;
    while i < |feed.items|
      invariant 0 <= i <= |feed.items|
      invariant |papers| == i
      invariant forall k :: 0 <= k < i ==> papers[k] == Normalize(feed.items[k])
    {
      papers := papers + [Normalize(feed.items[i])];
      i := i + 1;
    }
    if feed.failure.Some? {
      return Failure(feed.failure.value);
    }
    return Success(papers);
  }
}
