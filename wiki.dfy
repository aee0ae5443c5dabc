/**
 * WikiSearcher.search: turning the Wikipedia API's answer into the single
 * lookup result the agents see. The HTTP request and the JSON decoding are
 * not modelled; their outcome is the input.
 */
module Wiki {
  import opened Wrappers
  import opened Text

  /** One entry of the response's query.pages object, in response order;
      either key may be missing. */
  datatype Page = Page(title: Option<string>, extract: Option<string>)

  /** What the request and the decoding produced. */
  datatype FetchOutcome =
    | TransportError(message: string)  // requests.RequestException; message is str(e)
    | BadJson                          // resp.json() raised ValueError
    | Pages(pages: seq<Page>)          // query.pages, empty when either key is absent

  datatype LookupResult = LookupResult(title: string, snippet: string, url: string)

  const PagePrefix: string := "https://en.wikipedia.org/wiki/"
  const DefaultSentences: int := 2
  const WordsPerSentence: int := 20
  const ErrorTitle: string := "Search Error"
  const BadJsonMessage: string := "Invalid JSON from Wikipedia API"
  const NoResults: LookupResult := LookupResult("No Results Found", "", "")

  /** The page carries an `extract` key whose value is a non-empty string. */
  predicate HasExtract(p: Page) {
    p.extract.Some? && p.extract.value != ""
  }

  /** The position of the first page that has an extract, if any. */
  function FirstWithExtract(pages: seq<Page>): (r: Option<nat>)
    ensures r.Some? ==> r.value < |pages| && HasExtract(pages[r.value])
    ensures r.Some? ==> forall j :: 0 <= j < r.value ==> !HasExtract(pages[j])
    ensures r.None? <==> forall j :: 0 <= j < |pages| ==> !HasExtract(pages[j])
  {
    if pages == [] then None
    else if HasExtract(pages[0]) then Some(0)
    else match FirstWithExtract(pages[1..])
      case None => None
      case Some(i) => Some(i + 1)
  }

  /** ' '.join(extract.split()[:sentences * 20]). */
  function Snippet(extract: string, sentences: int): string {
    Join(SlicePrefix(Split(extract), sentences * WordsPerSentence), " ")
  }

  /** The article link: the prefix, then the title with spaces made underscores. */
  function PageUrl(title: string): (url: string)
    ensures |url| == |PagePrefix| + |title| && url[..|PagePrefix|] == PagePrefix
    ensures forall i :: |PagePrefix| <= i < |url| ==> url[i] != ' '
    ensures forall i :: 0 <= i < |title| && title[i] != ' ' ==> url[|PagePrefix| + i] == title[i]
    ensures forall i :: 0 <= i < |title| ==> url[|PagePrefix| + i] == (if title[i] == ' ' then '_' else title[i])
  {
    PagePrefix + SpacesToUnderscores(title)
  }

  /** The result built from a page that has an extract. */
  function PageResult(p: Page, sentences: int): LookupResult
    requires HasExtract(p)
  {
    var title := p.title.GetOr("");
    LookupResult(title, Snippet(p.extract.value, sentences), PageUrl(title))
  }

  /** What search returns for a given outcome of the request: always a list
      of exactly one result. */
  function SearchResults(fetched: FetchOutcome, sentences: int): (r: seq<LookupResult>)
    ensures |r| == 1
  {
    match fetched
    case TransportError(e) => [LookupResult(ErrorTitle, "Request failed: " + e, "")]
    case BadJson => [LookupResult(ErrorTitle, BadJsonMessage, "")]
    case Pages(pages) =>
      match FirstWithExtract(pages)
      case Some(i) => [PageResult(pages[i], sentences)]
      case None => [NoResults]
  }

  /** WikiSearcher.search, from the point where the response is decoded: the
      loop over the pages stops at the first one that has an extract. */
  method Search(fetched: FetchOutcome, sentences: int) returns (results: seq<LookupResult>)
    ensures results == SearchResults(fetched, sentences)
  {
    match fetched {
      case TransportError(e) =>
        return [LookupResult(ErrorTitle, "Request failed: " + e, "")];
      case BadJson =>
        return [LookupResult(ErrorTitle, BadJsonMessage, "")];
      case Pages(pages) =>
        results := [];
        var i := 0;
        while i < |pages|
          invariant 0 <= i <= |pages|
          invariant results == []
          invariant forall j :: 0 <= j < i ==> !HasExtract(pages[j])
        {
          var page := pages[i];
          if page.extract.Some? && page.extract.value != "" {
            var title := page.title.GetOr("");
            var words := Split(page.extract.value);
            var snippet := Join(SlicePrefix(words, sentences * WordsPerSentence), " ");
            var url := PagePrefix + SpacesToUnderscores(title);
            results := results + [LookupResult(title, snippet, url)];
            assert FirstWithExtract(pages) == Some(i);
            break;
          }
          i := i + 1;
        }
        if results == [] {
          results := results + [NoResults];
        }
    }
  }

  /** A snippet is the extract's first `sentences * 20` words, joined by
      single spaces: splitting it gives those words back, and it has no
      leading, trailing or doubled whitespace. */
  lemma SnippetWords(extract: string, sentences: int)
    requires 0 <= sentences
    ensures var words, n := Split(extract), sentences * WordsPerSentence;
            Split(Snippet(extract, sentences)) == words[..if n <= |words| then n else |words|]
    ensures Clean(Snippet(extract, sentences))
  {
    var ws := SlicePrefix(Split(extract), sentences * WordsPerSentence);
    assert forall i :: 0 <= i < |ws| ==> ws[i] == Split(extract)[i];
    SplitJoin(ws);
    JoinClean(ws);
  }

  /** With the default of two sentences a snippet has at most 40 words. */
  lemma DefaultSnippetBound(extract: string)
    ensures |Split(Snippet(extract, DefaultSentences))| <= 40
  {
    SnippetWords(extract, DefaultSentences);
  }

  /** When some page has an extract, the first such page supplies the result:
      its title unchanged, its snippet, and a link that is the prefix followed
      by the title with no spaces left and no change in length. */
  lemma SearchFindsFirst(pages: seq<Page>, sentences: int, i: nat)
    requires i < |pages| && HasExtract(pages[i])
    requires forall j :: 0 <= j < i ==> !HasExtract(pages[j])
    requires 0 <= sentences
    ensures var r := SearchResults(Pages(pages), sentences);
            var title := pages[i].title.GetOr("");
            && r[0].title == title
            && r[0].snippet == Snippet(pages[i].extract.value, sentences)
            && Clean(r[0].snippet)
            && |r[0].url| == |PagePrefix| + |title|
            && r[0].url == PagePrefix + r[0].url[|PagePrefix|..]
            && ' ' !in r[0].url[|PagePrefix|..]
  {
    assert FirstWithExtract(pages) == Some(i);
    var title := pages[i].title.GetOr("");
    var url := PageUrl(title);
    assert SearchResults(Pages(pages), sentences)[0] == PageResult(pages[i], sentences);
    SnippetWords(pages[i].extract.value, sentences);
    UrlTail(title);
  }

  lemma UrlTail(title: string)
    ensures var url := PageUrl(title);
            url == PagePrefix + url[|PagePrefix|..] && ' ' !in url[|PagePrefix|..]
  {
    var url := PageUrl(title);
    var tail := url[|PagePrefix|..];
    assert forall k :: 0 <= k < |tail| ==> tail[k] == url[|PagePrefix| + k];
    assert url == url[..|PagePrefix|] + tail;
  }

  /** When no page has an extract, the result is exactly the empty sentinel. */
  lemma SearchFindsNothing(pages: seq<Page>, sentences: int)
    requires forall j :: 0 <= j < |pages| ==> !HasExtract(pages[j])
    ensures SearchResults(Pages(pages), sentences) == [NoResults]
  {
  }

  /** A failed request or an undecodable body gives a single error sentinel:
      the error title, a non-empty diagnostic and no link. */
  lemma SearchFailures(fetched: FetchOutcome, sentences: int)
    requires !fetched.Pages?
    ensures var r := SearchResults(fetched, sentences);
            r[0].title == ErrorTitle && r[0].snippet != "" && r[0].url == ""
  {
  }
}
