/** The web application's `/search` route and the web-search tool it calls: the FAQ
    tool and the web tool are tried one after the other, the first three organic results
    are formatted, and the response carries a fallback string per failed source, the list
    of error messages, and status 500 only when both sources failed. */
module App {
  import opened Common
  import opened PyStr
  import opened Serp
  import opened RagCode

  const Separator := "\n\n---\n\n"
  const TopCount := 3
  const ToolCredentialsMissing :=
    "Bright Data credentials not found in .env file. Please set BRIGHDATA_USERNAME and BRIGHDATA_PASSWORD."
  const FaqFailed := "FAQ search failed"
  const WebFailed := "Web search failed"

  // ---------------------------------------------------------------------------
  // bright_data_web_search_tool
  // ---------------------------------------------------------------------------

  function ToolUrl(formattedQuery: string): (url: string) {
    "https://www.google.com/search?q=" + formattedQuery + "&brd_json=1&num=50"
  }

  /** The tool's URL determines the formatted query when the latter holds no '&'. */
  lemma ToolUrlInjective(q1: string, q2: string)
    requires '&' !in q1 && '&' !in q2
    requires ToolUrl(q1) == ToolUrl(q2)
    ensures q1 == q2
  {
    var endpoint := "https://www.google.com/search?q=";
    var rest := "brd_json=1&num=50";
    assert ToolUrl(q1) == endpoint + (q1 + ['&'] + rest);
    assert ToolUrl(q2) == endpoint + (q2 + ['&'] + rest);
    assert q1 + ['&'] + rest == ToolUrl(q1)[|endpoint|..];
    assert q2 + ['&'] + rest == ToolUrl(q2)[|endpoint|..];
    CutAtFirst('&', q1, rest, q2, rest);
  }

  /** The message of the `ValueError` the tool's catch-all handler raises. */
  function Wrapped(message: string): (r: string)
    ensures HasPrefix(r, "Web search error: ") && r[18..] == message
  {
    "Web search error: " + message
  }

  /** `bright_data_web_search_tool(query)`: the `organic` list of the proxy's reply, or
      the message of the `ValueError` it raises. `get(url)` is what the HTTP client does
      with the GET. Credentials are checked before any request; a transport failure is
      reported as "Request failed: ..."; every other failure, including a non-200 status,
      an undecodable body and a missing `organic` key, is wrapped as "Web search error: ...". */
  function WebSearchTool(username: Option<string>, password: Option<string>, query: string,
                         get: string -> Transport): (r: Result<seq<SerpResult>, string>)
    ensures !(Truthy(username) && Truthy(password)) ==> r == Err(ToolCredentialsMissing)
    ensures var t := get(ToolUrl(FormatQuery(query)));
      r.Ok? <==> (Truthy(username) && Truthy(password) && t.Sent? && t.reply.status == 200
                  && t.reply.json.Some? && t.reply.json.value.organic.Some?)
    ensures var t := get(ToolUrl(FormatQuery(query)));
      r.Ok? ==> r.value == t.reply.json.value.organic.value
  {
    if !Truthy(username) || !Truthy(password) then Err(ToolCredentialsMissing)
    else
      match get(ToolUrl(FormatQuery(query)))
      case RequestError(detail) => Err("Request failed: " + detail)
      case OtherError(detail) => Err(Wrapped(detail))
      case Sent(reply) =>
        if reply.status != 200 then
          Err(Wrapped("Search request failed with status code: " + IntToDecimal(reply.status)))
        else if reply.json.None? then
          Err(Wrapped("Failed to parse JSON response. Response content: "
                      + Take(reply.text, 500) + "..."))
        else if reply.json.value.organic.None? then
          Err(Wrapped("Unexpected API response format - 'organic' key not found. Response: "
                      + Take(reply.json.value.dump, 500) + "..."))
        else Ok(reply.json.value.organic.value)
  }

  /** With the credentials present, a transport failure is reported as
      "Request failed: ..." and every other failure is wrapped as "Web search error: ...",
      the catch-all handler's message; a non-200 status message ends with the status. */
  lemma WebSearchToolErrors(username: Option<string>, password: Option<string>, query: string,
                            get: string -> Transport)
    requires Truthy(username) && Truthy(password)
    ensures var t := get(ToolUrl(FormatQuery(query)));
      var r := WebSearchTool(username, password, query, get);
      && (t.RequestError? ==> r == Err("Request failed: " + t.detail))
      && (!t.RequestError? && r.Err? ==> HasPrefix(r.error, "Web search error: "))
      && (t.Sent? && t.reply.status != 200 ==>
            r == Err(Wrapped("Search request failed with status code: " + IntToDecimal(t.reply.status))))
  {
  }

  // ---------------------------------------------------------------------------
  // Formatting the first results
  // ---------------------------------------------------------------------------

  function Min(a: int, b: int): (m: int) {
    if a <= b then a else b
  }

  /** The texts of the first `TopCount` results, or of all of them if there are fewer. */
  function TopTexts(results: seq<SerpResult>): (texts: seq<string>) {
    seq(Min(TopCount, |results|), k requires 0 <= k < |results| => ResultText(results[k]))
  }

  /** The web slot of a successful search. */
  function TopResultsText(results: seq<SerpResult>): (text: string) {
    Join(Separator, TopTexts(results))
  }

  /** The web slot lists the first three results, in order, separated by the separator;
      later results are ignored, and no results give the empty string. */
  lemma TopResultsTextShape(results: seq<SerpResult>)
    ensures |results| == 0 ==> TopResultsText(results) == []
    ensures |results| == 1 ==> TopResultsText(results) == ResultText(results[0])
    ensures |results| == 2 ==>
      TopResultsText(results) == ResultText(results[0]) + Separator + ResultText(results[1])
    ensures |results| >= 3 ==>
      TopResultsText(results)
      == ResultText(results[0]) + Separator + ResultText(results[1]) + Separator + ResultText(results[2])
  {
    var texts := TopTexts(results);
    if |results| >= 2 {
      var t0, t1 := ResultText(results[0]), ResultText(results[1]);
      if |results| >= 3 {
        var t2 := ResultText(results[2]);
        assert texts[1..] == [t1, t2] && texts[1..][1..] == [t2];
        assert Join(Separator, texts[1..]) == t1 + Separator + t2;
        assert Join(Separator, texts) == t0 + Separator + (t1 + Separator + t2);
      } else {
        assert texts[1..] == [t1];
        assert Join(Separator, texts) == t0 + Separator + t1;
      }
    }
  }

  /** The web slot is empty exactly when there were no organic results: a result always
      formats to a non-empty text. */
  lemma TopResultsTextEmptyIff(results: seq<SerpResult>)
    ensures TopResultsText(results) == [] <==> results == []
  {
    if results != [] {
      JoinStartsWithFirst(Separator, TopTexts(results));
      assert TopTexts(results)[0] == ResultText(results[0]);
    }
  }

  /** The loop of the `/search` route over `web_results[:3]`. */
  method FormatTopResults(results: seq<SerpResult>) returns (webResults: string)
    ensures webResults == TopResultsText(results)
  {
    var formatted: seq<string> := [];
    var n := Min(TopCount, |results|);
    var i := 0;
    while i < n
      invariant 0 <= i <= n
      invariant |formatted| == i
      invariant forall k :: 0 <= k < i ==> formatted[k] == ResultText(results[k])
    {
      formatted := formatted + [ResultText(results[i])];
      i := i + 1;
    }
    assert formatted == TopTexts(results);
    webResults := Join(Separator, formatted);
  }

  // ---------------------------------------------------------------------------
  // The /search route
  // ---------------------------------------------------------------------------

  datatype Body =
    | QueryRequired                   // {'error': 'Query is required'}
    | Results(faqResults: string, webResults: string, errors: Option<seq<string>>)

  datatype Response = Response(body: Body, status: int)

  datatype Source = FaqSource | WebSource

  /** Number of failed outcomes among the two. */
  function Failures(faq: Result<string, string>, web: Result<seq<SerpResult>, string>): (n: nat) {
    (if faq.Err? then 1 else 0) + (if web.Err? then 1 else 0)
  }

  /** The `/search` route. `query` is the request's `query` field (`None` when it is
      missing or null); `retrieve(collection, query)` is what a retriever over that
      collection returns or raises, and the remaining parameters feed `WebSearchTool`.
      `searched` lists the sources queried, in order. */
  method Search(query: Option<string>, retrieve: (string, string) -> Result<string, string>,
                username: Option<string>, password: Option<string>, get: string -> Transport)
    returns (response: Response, ghost searched: seq<Source>)
    // a missing or empty query is refused with 400 before either source is queried
    ensures (query.None? || query.value == []) <==> response.status == 400
    ensures response.status == 400 ==> response.body == QueryRequired && searched == []
    ensures query.Some? && query.value != [] ==>
      var faq := retrieve(FaqCollection, query.value);
      var web := WebSearchTool(username, password, query.value, get);
      && searched == [FaqSource, WebSource]
      && response.body.Results?
      // each slot holds its source's result, or its fallback when that source failed
      && response.body.faqResults == (if faq.Ok? then faq.value else FaqFailed)
      && response.body.webResults == (if web.Ok? then TopResultsText(web.value) else WebFailed)
      // status 500 exactly when both sources failed, and the default 200 otherwise
      && (response.status == 500 <==> faq.Err? && web.Err?)
      && (response.status == 500 || response.status == 200)
      // one message per failed source, the FAQ message first; no list when none failed
      && (response.body.errors.None? <==> Failures(faq, web) == 0)
      && (response.body.errors.Some? ==>
            |response.body.errors.value| == Failures(faq, web)
            && (faq.Err? ==> response.body.errors.value[0] == "FAQ search failed: " + faq.error)
            && (web.Err? ==> response.body.errors.value[Failures(faq, web) - 1]
                             == "Web search failed: " + web.error))
  {
    if query.None? || query.value == [] {
      return Response(QueryRequired, 400), [];
    }
    var q := query.value;
    var faqResults: Option<string> := None;
    var webResultsStr: Option<string> := None;
    var errors: seq<string> := [];

    // machine_learning_faq_retrieval_tool: a retriever over the FAQ collection
    var faq := retrieve(FaqCollection, q);
    searched := [FaqSource];
    if faq.Ok? {
      faqResults := Some(faq.value);
    } else {
      errors := errors + ["FAQ search failed: " + faq.error];
    }

    var web := WebSearchTool(username, password, q, get);
    searched := searched + [WebSource];
    if web.Ok? {
      var formatted := FormatTopResults(web.value);
      webResultsStr := Some(formatted);
    } else {
      errors := errors + ["Web search failed: " + web.error];
    }

    var body := Results(faqResults.GetOr(FaqFailed), webResultsStr.GetOr(WebFailed),
                        if errors == [] then None else Some(errors));
    if faqResults.None? && webResultsStr.None? {
      return Response(body, 500), searched;
    }
    response := Response(body, 200);
  }
}
