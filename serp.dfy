/** What the web-search proxy exchanges with the core, shared by the ingestor
    (web_search_to_db.py) and the web-search tool (app.py): the query encoding, the
    shape of the proxy's reply and the text a search result is flattened to. */
module Serp {
  import opened Common
  import opened PyStr

  /** One entry of the reply's `organic` list. A key the entry lacks is `None`, which
      `result.get(key, '')` reads as the empty string. */
  datatype SerpResult = SerpResult(title: Option<string>, url: Option<string>, snippet: Option<string>)

  /** A reply body that parsed as JSON: the value under `organic` if that key is
      present, and `dump`, the text `json.dumps(data, indent=2)` renders for it. */
  datatype JsonDoc = JsonDoc(organic: Option<seq<SerpResult>>, dump: string)

  /** An HTTP reply; `json` is `None` when `response.json()` raises a decode error. */
  datatype HttpReply = HttpReply(status: int, text: string, json: Option<JsonDoc>)

  /** The outcome of one GET through the proxy: a reply, a transport failure
      (`RequestError`), or any other exception the client raised. */
  datatype Transport = Sent(reply: HttpReply) | RequestError(detail: string) | OtherError(detail: string)

  // ---------------------------------------------------------------------------
  // Query encoding: "+".join(query.split())
  // ---------------------------------------------------------------------------

  function FormatQuery(query: string): (formatted: string) {
    Join("+", Split(query))
  }

  /** The formatted query is the query's whitespace-separated tokens, in order, joined
      by '+', whatever whitespace stood between them. */
  lemma FormatQueryJoinsTokens(query: string, gaps: seq<string>, tokens: seq<string>)
    requires IsTokenization(query, gaps, tokens)
    ensures FormatQuery(query) == Join("+", tokens)
  {
    TokenizationIsSplit(query, gaps, tokens);
  }

  /** The formatted query holds no whitespace. */
  lemma FormatQueryNoSpace(query: string)
    ensures NoSpace(FormatQuery(query))
  {
    JoinNoSpace("+", Split(query));
  }

  /** It is empty exactly when the query is empty or whitespace only. */
  lemma FormatQueryEmptyIff(query: string)
    ensures FormatQuery(query) == [] <==> AllSpace(query)
  {
    SplitEmptyIff(query);
    if Split(query) != [] {
      JoinStartsWithFirst("+", Split(query));
    }
  }

  /** Formatting an already formatted query leaves it unchanged. */
  lemma FormatQueryIdempotent(query: string)
    ensures FormatQuery(FormatQuery(query)) == FormatQuery(query)
  {
    var f := FormatQuery(query);
    if f != [] {
      FormatQueryNoSpace(query);
      SplitSingle(f);
    }
  }

  // ---------------------------------------------------------------------------
  // Flattening a result to its persisted text
  // ---------------------------------------------------------------------------

  /** The text a search result is stored and shown as. */
  function RecordText(title: string, url: string, snippet: string): (text: string) {
    "Title: " + title + "\nURL: " + url + "\nSnippet: " + snippet
  }

  function ResultText(r: SerpResult): (text: string) {
    RecordText(r.title.GetOr(""), r.url.GetOr(""), r.snippet.GetOr(""))
  }

  /** `not any([title, url, snippet])`: every field missing or empty. */
  predicate IsBlank(r: SerpResult) {
    r.title.GetOr("") == [] && r.url.GetOr("") == [] && r.snippet.GetOr("") == []
  }

  /** Reads a flattened text back into its title, URL and snippet. */
  function ParseRecord(text: string): (r: Option<(string, string, string)>) {
    match StripPrefix(text, "Title: ")
    case None => None
    case Some(afterTag) =>
      var (title, afterTitle) := CutBefore(afterTag, '\n');
      match StripPrefix(afterTitle, "\nURL: ")
      case None => None
      case Some(afterUrlTag) =>
        var (url, afterUrl) := CutBefore(afterUrlTag, '\n');
        match StripPrefix(afterUrl, "\nSnippet: ")
        case None => None
        case Some(snippet) => Some((title, url, snippet))
  }

  /** The flattened text keeps each field recoverable, provided the title and the URL
      hold no line break. */
  lemma RecordTextRoundTrip(title: string, url: string, snippet: string)
    requires '\n' !in title && '\n' !in url
    ensures ParseRecord(RecordText(title, url, snippet)) == Some((title, url, snippet))
  {
    var afterUrl := "\nSnippet: " + snippet;
    var afterTitle := "\nURL: " + (url + afterUrl);
    assert RecordText(title, url, snippet) == "Title: " + (title + afterTitle);
    StripPrefixConcat("Title: ", title + afterTitle);
    CutBeforeConcat(title, afterTitle, '\n');
    StripPrefixConcat("\nURL: ", url + afterUrl);
    CutBeforeConcat(url, afterUrl, '\n');
    StripPrefixConcat("\nSnippet: ", snippet);
  }

  /** Two results with newline-free titles and URLs flatten to the same text only if
      their fields agree. */
  lemma ResultTextInjective(r1: SerpResult, r2: SerpResult)
    requires '\n' !in r1.title.GetOr("") && '\n' !in r1.url.GetOr("")
    requires '\n' !in r2.title.GetOr("") && '\n' !in r2.url.GetOr("")
    requires ResultText(r1) == ResultText(r2)
    ensures r1.title.GetOr("") == r2.title.GetOr("")
    ensures r1.url.GetOr("") == r2.url.GetOr("")
    ensures r1.snippet.GetOr("") == r2.snippet.GetOr("")
  {
    RecordTextRoundTrip(r1.title.GetOr(""), r1.url.GetOr(""), r1.snippet.GetOr(""));
    RecordTextRoundTrip(r2.title.GetOr(""), r2.url.GetOr(""), r2.snippet.GetOr(""));
  }
}
