/** The combined searcher: one embedder shared by two retrievers, one over the ML FAQ
    collection and one over the web-search collection, queried one after the other, each
    call isolated so that a failing source only replaces its own slot by a fallback. */
module CombinedSearch {
  import opened Common
  import opened RagCode

  const FaqKey := "faq_results"
  const WebKey := "web_results"
  const FaqFallback := "No results found in ML FAQ"
  const WebFallback := "No results found in web search"

  class CombinedSearcher {
    const embedder: EmbedData
    const mlFaqDb: QdrantVdb
    const webDb: QdrantVdb
    const mlFaqRetriever: Retriever
    const webRetriever: Retriever

    /** The wiring `__init__` sets up: two distinct databases bound to the FAQ and the
        web collection, each with its client defined, and a retriever over each that
        shares the one embedder. */
    ghost predicate Valid()
      reads mlFaqDb, webDb
    {
      mlFaqDb != webDb
      && mlFaqDb.collectionName == FaqCollection && webDb.collectionName == WebCollection
      && mlFaqDb.clientDefined && webDb.clientDefined
      && mlFaqRetriever.db == mlFaqDb && webRetriever.db == webDb
      && mlFaqRetriever.embedder == embedder && webRetriever.embedder == embedder
    }

    constructor ()
      ensures Valid()
      ensures fresh(embedder) && fresh(mlFaqDb) && fresh(webDb)
      ensures fresh(mlFaqRetriever) && fresh(webRetriever)
    {
      var e := new EmbedData();
      var faqDb := new QdrantVdb(FaqCollection);
      faqDb.DefineClient();
      var wDb := new QdrantVdb(WebCollection);
      wDb.DefineClient();
      embedder, mlFaqDb, webDb := e, faqDb, wDb;
      mlFaqRetriever := new Retriever(faqDb, e);
      webRetriever := new Retriever(wDb, e);
    }

    /** `search(query)`. `retrieve(collection, query)` is what `Retriever.search`
        returns or raises for a retriever over that collection. The answer always has
        exactly the two keys; a source that returned keeps its string unchanged, a
        source that raised gets its fallback, and neither slot depends on the other
        source. Nothing is raised. `searched` lists the collections queried, in order:
        the web source is queried whether or not the FAQ source failed. */
    method Search(query: string, retrieve: (string, string) -> Result<string, string>)
      returns (answer: map<string, string>, ghost searched: seq<string>)
      requires Valid()
      ensures answer.Keys == {FaqKey, WebKey}
      ensures var faq := retrieve(FaqCollection, query);
        answer[FaqKey] == if faq.Ok? then faq.value else FaqFallback
      ensures var web := retrieve(WebCollection, query);
        answer[WebKey] == if web.Ok? then web.value else WebFallback
      ensures searched == [FaqCollection, WebCollection]
    {
      var faqResults: string;
      var faq := retrieve(mlFaqRetriever.db.collectionName, query);
      searched := [mlFaqRetriever.db.collectionName];
      if faq.Ok? {
        faqResults := faq.value;
      } else {
        faqResults := FaqFallback;
      }

      var webResults: string;
      var web := retrieve(webRetriever.db.collectionName, query);
      searched := searched + [webRetriever.db.collectionName];
      if web.Ok? {
        webResults := web.value;
      } else {
        webResults := WebFallback;
      }

      answer := map[FaqKey := faqResults, WebKey := webResults];
    }
  }
}
