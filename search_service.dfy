/** The external services the ingest code talks to — the Azure AI Search
    index client, the search client and the embedding endpoint — as one
    object holding the existing indexes and the log of calls made to it.
    What the services answer is fixed when the object is created. */
module SearchService {
  import opened PyStrings
  import opened Documents
  import opened IndexSchema

  /** One request sent to a service. */
  datatype Call =
    | IndexLookup(name: string)
    | IndexCreation(definition: IndexDefinition)
    | Embedding(text: string)
    | Upload(indexName: string, document: Document)

  /** `sum(1 for r in results if r.succeeded)`. */
  function CountSucceeded(results: seq<bool>): nat {
    if results == [] then 0 else (if results[0] then 1 else 0) + CountSucceeded(results[1..])
  }

  /** The two success rules of the source agree: a positive count of
      succeeded results (the MCP tools) is `any(r.succeeded ...)` (the
      package's `ingest_document`). */
  lemma {:induction false} CountSucceededPositive(results: seq<bool>)
    ensures CountSucceeded(results) > 0 <==> true in results
    ensures CountSucceeded(results) <= |results|
  {
    if results != [] {
      CountSucceededPositive(results[1..]);
      assert results == [results[0]] + results[1..];
    }
  }

  class Service {
    /** Indexes present on the search service, by name. */
    var indexes: map<string, IndexDefinition>
    /** Every request made so far, oldest first. */
    var calls: seq<Call>
    /** The embedding the endpoint returns for a text. */
    const embedder: string -> Vector
    /** The per-document `succeeded` flags an upload returns. */
    const uploadResults: Document -> seq<bool>
    /** The exception `create_or_update_index` raises, if it does. */
    const createFailure: Option<string>

    constructor (existing: map<string, IndexDefinition>, embedder: string -> Vector,
                 uploadResults: Document -> seq<bool>, createFailure: Option<string>)
      ensures indexes == existing && calls == []
      ensures this.embedder == embedder && this.uploadResults == uploadResults
      ensures this.createFailure == createFailure
    {
      indexes := existing;
      calls := [];
      this.embedder := embedder;
      this.uploadResults := uploadResults;
      this.createFailure := createFailure;
    }

    /** `get_index`: found, or `ResourceNotFoundError`. */
    method GetIndex(name: string) returns (found: bool)
      modifies this
      ensures found <==> name in indexes
      ensures indexes == old(indexes) && calls == old(calls) + [IndexLookup(name)]
    {
      found := name in indexes;
      calls := calls + [IndexLookup(name)];
    }

    /** `create_or_update_index`: stores the definition, or raises. */
    method CreateOrUpdateIndex(def: IndexDefinition) returns (failure: Option<string>)
      modifies this
      ensures failure == createFailure
      ensures indexes == if failure.None? then old(indexes)[def.name := def] else old(indexes)
      ensures calls == old(calls) + [IndexCreation(def)]
    {
      failure := createFailure;
      if failure.None? {
        indexes := indexes[def.name := def];
      }
      calls := calls + [IndexCreation(def)];
    }

    /** `embeddings.create`. */
    method Embed(text: string) returns (v: Vector)
      modifies this
      ensures v == embedder(text)
      ensures indexes == old(indexes) && calls == old(calls) + [Embedding(text)]
    {
      v := embedder(text);
      calls := calls + [Embedding(text)];
    }

    /** `upload_documents(documents=[doc])`: the number of succeeded results. */
    method UploadDocument(indexName: string, doc: Document) returns (succeeded: nat)
      modifies this
      ensures succeeded == CountSucceeded(uploadResults(doc))
      ensures indexes == old(indexes) && calls == old(calls) + [Upload(indexName, doc)]
    {
      succeeded := CountSucceeded(uploadResults(doc));
      calls := calls + [Upload(indexName, doc)];
    }
  }

  /** The search settings read from the environment. */
  datatype SearchConfig = SearchConfig(endpoint: string, indexName: string, dimensions: nat)

  /** The word every failure text of the search tools starts with; the older
      ingest tool of the server tests a reply for it. */
  const ErrorWord: string := "Error"

  /** The text every search tool returns when no endpoint is configured. */
  const EndpointNotConfigured: string := ErrorWord + ": AZURE_AI_SEARCH_ENDPOINT is not configured."

  /** The definition both packages create. */
  function ConfiguredIndex(cfg: SearchConfig): IndexDefinition {
    ProjectLogIndex(cfg.indexName, cfg.dimensions)
  }

  /** The indexes after "create if absent". */
  function AfterEnsure(indexes: map<string, IndexDefinition>, def: IndexDefinition,
                       failure: Option<string>): map<string, IndexDefinition>
  {
    if def.name in indexes || failure.Some? then indexes else indexes[def.name := def]
  }

  /** The requests "create if absent" makes. */
  function EnsureCalls(indexes: map<string, IndexDefinition>, def: IndexDefinition): seq<Call> {
    if def.name in indexes then [IndexLookup(def.name)] else [IndexLookup(def.name), IndexCreation(def)]
  }

  /** "Create if absent" is idempotent, never removes or alters an existing
      index, and leaves the index present unless creation failed. */
  lemma AfterEnsureProperties(indexes: map<string, IndexDefinition>, def: IndexDefinition,
                              failure: Option<string>)
    ensures var after := AfterEnsure(indexes, def, failure);
      && AfterEnsure(after, def, failure) == after
      && (forall n :: n in indexes ==> n in after && after[n] == indexes[n])
      && (def.name in after <==> def.name in indexes || failure.None?)
      && after.Keys <= indexes.Keys + {def.name}
  {
  }

  /** A second "create if absent" only asks whether the index exists. */
  lemma EnsureTwiceCalls(indexes: map<string, IndexDefinition>, def: IndexDefinition)
    ensures EnsureCalls(AfterEnsure(indexes, def, None), def) == [IndexLookup(def.name)]
  {
  }
}
