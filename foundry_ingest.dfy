/** `ensure_index` and `ingest_document` of `_ingest.py`: create the
    project-log index when it is missing, then embed the context, build the
    document and upload it, raising on every failure. */
module FoundryIngest {
  import opened PyStrings
  import opened Documents
  import opened IndexSchema
  import opened SearchService

  const EndpointMissing: string := "AZURE_AI_SEARCH_ENDPOINT is not configured"
  const UploadFailed: string := "Document upload failed for all results"

  /** `ensure_index`: raises without an endpoint before any request; an
      existing index is left alone; otherwise the configured definition is
      created (or the creation error propagates). */
  method EnsureIndex(svc: Service, cfg: SearchConfig) returns (r: Outcome<()>)
    modifies svc
    ensures cfg.endpoint == "" ==>
      r == Err(EndpointMissing) && svc.indexes == old(svc.indexes) && svc.calls == old(svc.calls)
    ensures cfg.endpoint != "" ==>
      && svc.indexes == AfterEnsure(old(svc.indexes), ConfiguredIndex(cfg), svc.createFailure)
      && svc.calls == old(svc.calls) + EnsureCalls(old(svc.indexes), ConfiguredIndex(cfg))
      && r == if cfg.indexName !in old(svc.indexes) && svc.createFailure.Some?
              then Err(svc.createFailure.value) else Ok(())
  {
    if cfg.endpoint == "" {
      return Err(EndpointMissing);
    }
    var found := svc.GetIndex(cfg.indexName);
    if found {
      return Ok(());
    }
    var failure := svc.CreateOrUpdateIndex(ConfiguredIndex(cfg));
    if failure.Some? {
      return Err(failure.value);
    }
    return Ok(());
  }

  /** `ingest_document`: index first, then one embedding of the context,
      then exactly one upload of the built document; the document id is
      returned when some upload result succeeded. */
  method IngestDocument(svc: Service, cfg: SearchConfig, id: string, now: string, entry: Entry)
    returns (r: Outcome<string>)
    modifies svc
    ensures var def := ConfiguredIndex(cfg);
      var doc := BuildDocument(id, now, entry, svc.embedder(entry.context));
      if cfg.endpoint == "" then
        r == Err(EndpointMissing) && svc.calls == old(svc.calls)
      else if cfg.indexName !in old(svc.indexes) && svc.createFailure.Some? then
        r == Err(svc.createFailure.value)
        && svc.calls == old(svc.calls) + EnsureCalls(old(svc.indexes), def)
      else
        && svc.calls == old(svc.calls) + EnsureCalls(old(svc.indexes), def)
                        + [Embedding(entry.context), Upload(cfg.indexName, doc)]
        && r == if true in svc.uploadResults(doc) then Ok(id) else Err(UploadFailed)
    ensures svc.indexes == if cfg.endpoint == "" then old(svc.indexes)
                           else AfterEnsure(old(svc.indexes), ConfiguredIndex(cfg), svc.createFailure)
  {
    var ensured := EnsureIndex(svc, cfg);
    if ensured.Err? {
      return Err(ensured.message);
    }
    var vector := svc.Embed(entry.context);
    var doc := BuildDocument(id, now, entry, vector);
    var succeeded := svc.UploadDocument(cfg.indexName, doc);
    CountSucceededPositive(svc.uploadResults(doc));
    if succeeded == 0 {
      return Err(UploadFailed);
    }
    return Ok(doc.id);
  }
}
