/** The web-search ingestor: asks the search proxy for a page of Google results,
    flattens every non-blank organic result to its persisted text and hands the texts
    to the embedder and the vector database. */
module WebSearchToDb {
  import opened Common
  import opened PyStr
  import opened Serp
  import opened RagCode

  const DefaultCollection := WebCollection
  const DefaultNumResults := 50
  const ProxyHost := "brd.superproxy.io"
  const ProxyPort := 33335
  const CredentialsMissing := "Bright Data credentials not found in environment variables"

  /** The search URL for an already formatted query. */
  function SerpUrl(formattedQuery: string, numResults: int): (url: string) {
    "https://www.google.com/search?q=" + formattedQuery + "&num=" + IntToDecimal(numResults)
    + "&brd_json=1&brd_results=1&brd_serp=1"
  }

  /** The URL determines the query and the result count, as long as the formatted
      query holds no '&' (the query is not percent-encoded, so an '&' in it would end
      the `q` parameter early). */
  lemma SerpUrlInjective(q1: string, n1: int, q2: string, n2: int)
    requires '&' !in q1 && '&' !in q2
    requires SerpUrl(q1, n1) == SerpUrl(q2, n2)
    ensures q1 == q2 && n1 == n2
  {
    var d1, d2 := IntToDecimal(n1), IntToDecimal(n2);
    var rest1, rest2 := SerpUrlRest(d1), SerpUrlRest(d2);
    SerpUrlSplits(q1, n1);
    SerpUrlSplits(q2, n2);
    CutAtFirst('&', q1, rest1, q2, rest2);
    SerpUrlRestInjective(d1, d2);
    IntToDecimalInjective(n1, n2);
  }

  /** What follows the query's '&' in the search URL. */
  function SerpUrlRest(count: string): (rest: string) {
    "num=" + count + "&brd_json=1&brd_results=1&brd_serp=1"
  }

  lemma SerpUrlSplits(q: string, n: int)
    ensures SerpUrl(q, n)[32..] == q + ['&'] + SerpUrlRest(IntToDecimal(n))
  {
    var endpoint := "https://www.google.com/search?q=";
    assert |endpoint| == 32;
    assert SerpUrl(q, n) == endpoint + (q + ['&'] + SerpUrlRest(IntToDecimal(n)));
  }

  lemma SerpUrlRestInjective(c1: string, c2: string)
    requires SerpUrlRest(c1) == SerpUrlRest(c2)
    ensures c1 == c2
  {
    var tail := "&brd_json=1&brd_results=1&brd_serp=1";
    assert c1 == SerpUrlRest(c1)[4..|SerpUrlRest(c1)| - |tail|];
    assert c2 == SerpUrlRest(c2)[4..|SerpUrlRest(c2)| - |tail|];
  }

  /** `search_and_store(query)` without a count requests 50 results. */
  lemma DefaultCountText(query: string)
    ensures SerpUrl(FormatQuery(query), DefaultNumResults)
            == "https://www.google.com/search?q=" + FormatQuery(query) + "&num=50&brd_json=1&brd_results=1&brd_serp=1"
  {
    assert NatToDecimal(5) == ['5'];
    assert IntToDecimal(50) == ['5'] + ['0'];
  }

  function ProxyUrl(username: string, password: string): (url: string) {
    "http://" + username + ":" + password + "@" + ProxyHost + ":" + IntToDecimal(ProxyPort)
  }

  /** Why `search_and_store` raised. */
  datatype StoreError =
    | RequestFailed(detail: string)   // the GET itself raised
    | BadStatus(code: int)            // "Search request failed with status code: <code>"
    | NotJson                         // the body did not parse as JSON
    | NoOrganic                       // "Unexpected response format - 'organic' key not found"
    | NoValidResults                  // "No valid results found to store"
    | EmbedFailed(detail: string)     // embedder.embed raised
    | IngestFailed(detail: string)    // database.ingest_data raised

  // ---------------------------------------------------------------------------
  // Flattening the organic results
  // ---------------------------------------------------------------------------

  /** The texts built from `results`: one per non-blank result, in order. */
  function KeptTexts(results: seq<SerpResult>): (texts: seq<string>)
    ensures |texts| <= |results|
  {
    if results == [] then []
    else
      var last := results[|results| - 1];
      KeptTexts(results[..|results| - 1]) + (if IsBlank(last) then [] else [ResultText(last)])
  }

  /** The positions of the non-blank results, in order. */
  function KeptIndices(results: seq<SerpResult>): (idx: seq<nat>) {
    if results == [] then []
    else
      var n := |results| - 1;
      KeptIndices(results[..n]) + (if IsBlank(results[n]) then [] else [n])
  }

  /** `texts[k]` is the flattened text of `results[idx[k]]`, the positions in `idx`
      increase, and they are exactly the positions of the non-blank results. */
  ghost predicate KeepsNonBlank(results: seq<SerpResult>, idx: seq<nat>, texts: seq<string>) {
    |idx| == |texts|
    && (forall k :: 0 <= k < |idx| ==>
          idx[k] < |results| && !IsBlank(results[idx[k]]) && texts[k] == ResultText(results[idx[k]]))
    && (forall k, l :: 0 <= k < l < |idx| ==> idx[k] < idx[l])
    && (forall i :: 0 <= i < |results| && !IsBlank(results[i]) ==> i in idx)
  }

  /** Each kept text is exactly one non-blank result's text, in input order, and no
      non-blank result is lost: a result is dropped iff its title, URL and snippet are
      all empty. */
  lemma {:induction false} KeptTextsCorrespond(results: seq<SerpResult>)
    ensures KeepsNonBlank(results, KeptIndices(results), KeptTexts(results))
    decreases |results|
  {
    if results != [] {
      var n := |results| - 1;
      KeptTextsCorrespond(results[..n]);
      KeepsNonBlankSnoc(results, KeptIndices(results[..n]), KeptTexts(results[..n]));
    }
  }

  /** One more result extends the correspondence by its text, or by nothing if it is blank. */
  lemma KeepsNonBlankSnoc(results: seq<SerpResult>, idx: seq<nat>, texts: seq<string>)
    requires results != []
    requires KeepsNonBlank(results[..|results| - 1], idx, texts)
    ensures var n := |results| - 1;
      KeepsNonBlank(results,
                    idx + (if IsBlank(results[n]) then [] else [n]),
                    texts + (if IsBlank(results[n]) then [] else [ResultText(results[n])]))
  {
    var n := |results| - 1;
    var prefix := results[..n];
    assert forall k :: 0 <= k < |idx| ==> idx[k] < n && results[idx[k]] == prefix[idx[k]];
    assert forall i :: 0 <= i < n ==> results[i] == prefix[i];
  }

  /** Nothing is kept exactly when every result is blank. */
  lemma KeptTextsEmptyIff(results: seq<SerpResult>)
    ensures KeptTexts(results) == [] <==> forall i :: 0 <= i < |results| ==> IsBlank(results[i])
  {
    KeptTextsCorrespond(results);
    var idx := KeptIndices(results);
    if KeptTexts(results) != [] {
      assert !IsBlank(results[idx[0]]);
    }
  }

  /** The loop of `search_and_store` that builds `texts`, skipping blank results. */
  method FlattenResults(results: seq<SerpResult>) returns (texts: seq<string>)
    ensures texts == KeptTexts(results)
  {
    texts := [];
    var i := 0;
    while i < |results|
      invariant 0 <= i <= |results|
      invariant texts == KeptTexts(results[..i])
    {
      var result := results[i];
      assert results[..i + 1][..i] == results[..i];
      if IsBlank(result) {
        i := i + 1;
        continue;
      }
      texts := texts + [ResultText(result)];
      i := i + 1;
    }
    assert results[..i] == results;
  }

  // ---------------------------------------------------------------------------
  // The request and its validation
  // ---------------------------------------------------------------------------

  /** What `search_and_store` hands to the embedder, or why it raises before that:
      the reply to the GET on the search URL must have status 200, parse as JSON, carry
      an `organic` key and contain at least one non-blank result. */
  function TextsToStore(query: string, numResults: int, get: string -> Transport): (r: Result<seq<string>, StoreError>)
  {
    match get(SerpUrl(FormatQuery(query), numResults))
    case RequestError(detail) => Err(RequestFailed(detail))
    case OtherError(detail) => Err(RequestFailed(detail))
    case Sent(reply) =>
      if reply.status != 200 then Err(BadStatus(reply.status))
      else if reply.json.None? then Err(NotJson)
      else if reply.json.value.organic.None? then Err(NoOrganic)
      else
        var texts := KeptTexts(reply.json.value.organic.value);
        if texts == [] then Err(NoValidResults) else Ok(texts)
  }

  /** `search_and_store` gets texts to store exactly when the proxy answered 200 with
      an `organic` list holding a non-blank result, and those texts are the flattened
      non-blank results; a non-200 status is reported before the body is looked at, and a
      missing `organic` key before any result is flattened. */
  lemma TextsToStoreSpec(query: string, numResults: int, get: string -> Transport)
    ensures var t := get(SerpUrl(FormatQuery(query), numResults));
      var r := TextsToStore(query, numResults, get);
      && (r.Ok? <==> (t.Sent? && t.reply.status == 200 && t.reply.json.Some?
                      && t.reply.json.value.organic.Some?
                      && exists i :: 0 <= i < |t.reply.json.value.organic.value|
                                     && !IsBlank(t.reply.json.value.organic.value[i])))
      && (r.Ok? ==> r.value == KeptTexts(t.reply.json.value.organic.value) && r.value != [])
      && (t.Sent? && t.reply.status != 200 ==> r == Err(BadStatus(t.reply.status)))
      && ((t.Sent? && t.reply.status == 200 && t.reply.json.Some? && t.reply.json.value.organic.None?)
          ==> r == Err(NoOrganic))
  {
    var t := get(SerpUrl(FormatQuery(query), numResults));
    if t.Sent? && t.reply.json.Some? && t.reply.json.value.organic.Some? {
      KeptTextsEmptyIff(t.reply.json.value.organic.value);
    }
  }

  // ---------------------------------------------------------------------------
  // The ingestor object
  // ---------------------------------------------------------------------------

  class WebSearchIngestor {
    const collectionName: string
    var username: Option<string>
    var password: Option<string>
    var proxies: map<string, string>
    var embedder: EmbedData?
    var database: QdrantVdb?

    /** Both setup methods have run and succeeded. */
    ghost predicate Valid()
      reads this, database
    {
      embedder != null && database != null
      && database.collectionName == collectionName
      && database.clientDefined && database.collectionCreated
      && Truthy(username) && Truthy(password)
      && proxies == map["http" := ProxyUrl(username.value, password.value),
                        "https" := ProxyUrl(username.value, password.value)]
    }

    /** The object as `__init__` leaves it before calling the setup methods. */
    constructor (collectionName: string := DefaultCollection)
      ensures this.collectionName == collectionName
      ensures username == None && password == None && proxies == map[]
      ensures embedder == null && database == null
    {
      this.collectionName := collectionName;
      username, password, proxies := None, None, map[];
      embedder, database := null, null;
    }

    /** `setup_bright_data`: records the credentials read from the environment and
        raises unless both are non-empty; on success the proxy map routes both schemes
        through the proxy with those credentials. */
    method SetupBrightData(username: Option<string>, password: Option<string>) returns (r: Result<(), string>)
      modifies this
      ensures this.username == username && this.password == password
      ensures r.Ok? <==> Truthy(username) && Truthy(password)
      ensures r.Err? ==> r.error == CredentialsMissing && proxies == old(proxies)
      ensures r.Ok? ==> proxies == map["http" := ProxyUrl(username.value, password.value),
                                       "https" := ProxyUrl(username.value, password.value)]
      ensures embedder == old(embedder) && database == old(database)
    {
      this.username := username;
      this.password := password;
      if !Truthy(username) || !Truthy(password) {
        return Err(CredentialsMissing);
      }
      var proxyUrl := ProxyUrl(username.value, password.value);
      proxies := map["http" := proxyUrl, "https" := proxyUrl];
      r := Ok(());
    }

    /** `setup_database`: a fresh embedder and a database bound to this ingestor's
        collection, with its client defined and its collection created. `outcome` is
        what the vector store does with the setup calls; when it raises, so does
        `setup_database`, with its message, and the collection is not created. */
    method SetupDatabase(outcome: Result<(), string>) returns (r: Result<(), string>)
      modifies this
      ensures r == outcome
      ensures embedder != null && database != null && fresh(embedder) && fresh(database)
      ensures database.collectionName == collectionName
      ensures database.clientDefined && database.collectionCreated == outcome.Ok?
      ensures embedder.batches == [] && database.ingestCalls == 0
      ensures username == old(username) && password == old(password) && proxies == old(proxies)
    {
      embedder := new EmbedData();
      var db := new QdrantVdb(collectionName);
      database := db;
      db.DefineClient();
      r := db.CreateCollection(outcome);
    }

    /** `search_and_store`: every failure before the embedding step leaves the embedder
        and the database untouched; otherwise the texts go to `embed` once, then (if
        that did not raise) the database ingests once, and the count of stored texts
        is returned. `embedOutcome` and `ingestOutcome` are what the embedding library
        and the vector store do with the call. */
    method SearchAndStore(query: string, numResults: int := DefaultNumResults, get: string -> Transport,
                          embedOutcome: Result<(), string>, ingestOutcome: Result<(), string>)
      returns (r: Result<nat, StoreError>)
      requires Valid()
      modifies embedder, database
      ensures Valid()
      ensures var prepared := TextsToStore(query, numResults, get);
        && (prepared.Err? ==>
              r == Err(prepared.error)
              && embedder.batches == old(embedder.batches)
              && database.ingestCalls == old(database.ingestCalls))
        && (prepared.Ok? ==>
              embedder.batches == old(embedder.batches) + [prepared.value]
              && (embedOutcome.Err? ==>
                    r == Err(EmbedFailed(embedOutcome.error))
                    && database.ingestCalls == old(database.ingestCalls))
              && (embedOutcome.Ok? ==>
                    database.ingestCalls == old(database.ingestCalls) + 1
                    && r == if ingestOutcome.Ok? then Ok(|prepared.value|)
                            else Err(IngestFailed(ingestOutcome.error))))
    {
      var formattedQuery := FormatQuery(query);
      var url := SerpUrl(formattedQuery, numResults);
      var response := get(url);
      if !response.Sent? {
        return Err(RequestFailed(response.detail));
      }
      var reply := response.reply;
      if reply.status != 200 {
        return Err(BadStatus(reply.status));
      }
      if reply.json.None? {
        return Err(NotJson);
      }
      if reply.json.value.organic.None? {
        return Err(NoOrganic);
      }
      var results := reply.json.value.organic.value;
      var texts := FlattenResults(results);
      if texts == [] {
        return Err(NoValidResults);
      }
      var embedded := embedder.Embed(texts, embedOutcome);
      if embedded.Err? {
        return Err(EmbedFailed(embedded.error));
      }
      var ingested := database.IngestData(embedder, ingestOutcome);
      if ingested.Err? {
        return Err(IngestFailed(ingested.error));
      }
      r := Ok(|texts|);
    }
  }

  /** `WebSearchIngestor(collection_name)`: `setup_bright_data` then `setup_database`;
      construction raises when the credentials are missing, and otherwise when the
      setup calls into the vector store raise (`setupOutcome`). */
  method NewWebSearchIngestor(username: Option<string>, password: Option<string>,
                              setupOutcome: Result<(), string>, collectionName: string := DefaultCollection)
    returns (r: Result<WebSearchIngestor, string>)
    ensures r.Ok? <==> Truthy(username) && Truthy(password) && setupOutcome.Ok?
    ensures !(Truthy(username) && Truthy(password)) ==> r == Err(CredentialsMissing)
    ensures Truthy(username) && Truthy(password) && setupOutcome.Err? ==> r == Err(setupOutcome.error)
    ensures r.Ok? ==> fresh(r.value) && r.value.Valid() && r.value.collectionName == collectionName
    ensures r.Ok? ==> r.value.username == username && r.value.password == password
    ensures r.Ok? ==> r.value.embedder.batches == [] && r.value.database.ingestCalls == 0
  {
    var ingestor := new WebSearchIngestor(collectionName);
    var setup := ingestor.SetupBrightData(username, password);
    if setup.Err? {
      return Err(setup.error);
    }
    var db := ingestor.SetupDatabase(setupOutcome);
    if db.Err? {
      return Err(db.error);
    }
    r := Ok(ingestor);
  }
}
