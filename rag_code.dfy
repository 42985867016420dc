/** Handles for the objects of the `rag_code` library (`EmbedData`, `QdrantVDB`,
    `Retriever`). Their code is not part of this model: a handle holds only what the
    core's own code decides, which is which collection a database is bound to, whether
    its client and collection were set up, which batches of texts an embedder was given
    and how many times a database was asked to ingest. What a call into the library
    returns is a parameter of that call. */
module RagCode {
  import opened Common

  /** The two collections of the deployment. */
  const FaqCollection := "ml_faq_collection"
  const WebCollection := "web_search_collection"

  class EmbedData {
    /** The batches of texts handed to `embed`, in call order. */
    var batches: seq<seq<string>>

    constructor ()
      ensures batches == []
    {
      batches := [];
    }

    /** `embed(texts)`; `outcome` is what the embedding library does with them. */
    method Embed(texts: seq<string>, outcome: Result<(), string>) returns (r: Result<(), string>)
      modifies this
      ensures batches == old(batches) + [texts]
      ensures r == outcome
    {
      batches := batches + [texts];
      r := outcome;
    }
  }

  class QdrantVdb {
    const collectionName: string
    var clientDefined: bool
    var collectionCreated: bool
    /** The number of `ingest_data` calls made on this database. */
    var ingestCalls: nat

    constructor (collectionName: string)
      ensures this.collectionName == collectionName
      ensures !clientDefined && !collectionCreated && ingestCalls == 0
    {
      this.collectionName := collectionName;
      clientDefined, collectionCreated, ingestCalls := false, false, 0;
    }

    method DefineClient()
      modifies this
      ensures clientDefined
      ensures collectionCreated == old(collectionCreated) && ingestCalls == old(ingestCalls)
    {
      clientDefined := true;
    }

    /** `create_collection()`; `outcome` is what the vector store does with it. */
    method CreateCollection(outcome: Result<(), string>) returns (r: Result<(), string>)
      modifies this
      ensures collectionCreated == outcome.Ok?
      ensures clientDefined == old(clientDefined) && ingestCalls == old(ingestCalls)
      ensures r == outcome
    {
      collectionCreated := outcome.Ok?;
      r := outcome;
    }

    /** `ingest_data(embedder)`; `outcome` is what the vector store does with it. */
    method IngestData(embedder: EmbedData, outcome: Result<(), string>) returns (r: Result<(), string>)
      modifies this
      ensures ingestCalls == old(ingestCalls) + 1
      ensures clientDefined == old(clientDefined) && collectionCreated == old(collectionCreated)
      ensures r == outcome
    {
      ingestCalls := ingestCalls + 1;
      r := outcome;
    }
  }

  class Retriever {
    const db: QdrantVdb
    const embedder: EmbedData

    constructor (db: QdrantVdb, embedder: EmbedData)
      ensures this.db == db && this.embedder == embedder
    {
      this.db := db;
      this.embedder := embedder;
    }
  }
}
