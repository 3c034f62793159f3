/** The index tools of the MCP server: `_ensure_index_exists`,
    `_ingest_project_log_doc`, `index_create_project_log_index` and
    `index_ingest_project_log` of `index.py`, and the older
    `index_ingest_project_log` of `server.py`, which creates a missing index
    through the create tool. Failures come back as text, not exceptions. */
module McpIndex {
  import opened PyStrings
  import opened Documents
  import opened IndexSchema
  import opened SearchService

  const IngestFailed: string := "Failed to ingest project log document."

  function CreateError(exc: string): string {
    "Error creating index: " + exc
  }

  function AlreadyExists(indexName: string): string {
    "Index '" + (indexName + "' already exists.")
  }

  function Created(def: IndexDefinition): string {
    "Index '" + (def.name + "' created successfully.\nFields: " + Join(", ", FieldNames(def.fields)))
  }

  function Ingested(id: string, entry: Entry): string {
    "Project log ingested successfully.\n- **ID**: `"
    + (id + "`\n- **Title**: " + entry.title + "\n- **Type**: " + entry.entryType
       + "\n- **Customer**: " + entry.customerName)
  }

  /** `_ensure_index_exists`: `None` when the index exists or was created,
      otherwise the error text. */
  method EnsureIndexExists(svc: Service, cfg: SearchConfig) returns (err: Option<string>)
    modifies svc
    ensures cfg.endpoint == "" ==>
      err == Some(EndpointNotConfigured) && svc.indexes == old(svc.indexes) && svc.calls == old(svc.calls)
    ensures cfg.endpoint != "" ==>
      && svc.indexes == AfterEnsure(old(svc.indexes), ConfiguredIndex(cfg), svc.createFailure)
      && svc.calls == old(svc.calls) + EnsureCalls(old(svc.indexes), ConfiguredIndex(cfg))
      && err == if cfg.indexName !in old(svc.indexes) && svc.createFailure.Some?
                then Some(CreateError(svc.createFailure.value)) else None
  {
    if cfg.endpoint == "" {
      return Some(EndpointNotConfigured);
    }
    var found := svc.GetIndex(cfg.indexName);
    if found {
      return None;
    }
    var failure := svc.CreateOrUpdateIndex(ConfiguredIndex(cfg));
    if failure.Some? {
      return Some(CreateError(failure.value));
    }
    return None;
  }

  /** `_ingest_project_log_doc`: no request at all without an endpoint; an
      index error is returned as it is and stops the ingest; otherwise one
      embedding and one upload, reported as success exactly when some upload
      result succeeded. */
  method IngestProjectLogDoc(svc: Service, cfg: SearchConfig, id: string, now: string, entry: Entry)
    returns (msg: string)
    modifies svc
    ensures var def := ConfiguredIndex(cfg);
      var doc := BuildDocument(id, now, entry, svc.embedder(entry.context));
      if cfg.endpoint == "" then
        msg == EndpointNotConfigured && svc.calls == old(svc.calls)
      else if cfg.indexName !in old(svc.indexes) && svc.createFailure.Some? then
        msg == CreateError(svc.createFailure.value)
        && svc.calls == old(svc.calls) + EnsureCalls(old(svc.indexes), def)
      else
        && svc.calls == old(svc.calls) + EnsureCalls(old(svc.indexes), def)
                        + [Embedding(entry.context), Upload(cfg.indexName, doc)]
        && msg == if true in svc.uploadResults(doc) then Ingested(id, entry) else IngestFailed
    ensures svc.indexes == if cfg.endpoint == "" then old(svc.indexes)
                           else AfterEnsure(old(svc.indexes), ConfiguredIndex(cfg), svc.createFailure)
  {
    if cfg.endpoint == "" {
      return EndpointNotConfigured;
    }
    var err := EnsureIndexExists(svc, cfg);
    if err.Some? {
      return err.value;
    }
    var normalised := entry.(tags := Some(TagsOrEmpty(entry.tags)));
    assert BuildDocument(id, now, normalised, svc.embedder(entry.context))
        == BuildDocument(id, now, entry, svc.embedder(entry.context));
    msg := EmbedAndUpload(svc, cfg, id, now, normalised);
  }

  /** The common end of every project-log ingest: embed the context, upload
      the document built from it, and report. */
  method EmbedAndUpload(svc: Service, cfg: SearchConfig, id: string, now: string, entry: Entry)
    returns (msg: string)
    modifies svc
    ensures var doc := BuildDocument(id, now, entry, svc.embedder(entry.context));
      && svc.indexes == old(svc.indexes)
      && svc.calls == old(svc.calls) + [Embedding(entry.context), Upload(cfg.indexName, doc)]
      && msg == if true in svc.uploadResults(doc) then Ingested(id, entry) else IngestFailed
  {
    var embedding := svc.Embed(entry.context);
    var document := BuildDocument(id, now, entry, embedding);
    var succeeded := svc.UploadDocument(cfg.indexName, document);
    CountSucceededPositive(svc.uploadResults(document));
    if succeeded > 0 {
      return Ingested(document.id, entry);
    }
    return IngestFailed;
  }

  /** `index_create_project_log_index`: reports an existing index without
      creating anything; otherwise creates the configured definition. */
  method CreateProjectLogIndex(svc: Service, cfg: SearchConfig) returns (msg: string)
    modifies svc
    ensures cfg.endpoint == "" ==>
      msg == EndpointNotConfigured && svc.indexes == old(svc.indexes) && svc.calls == old(svc.calls)
    ensures cfg.endpoint != "" ==>
      && svc.indexes == AfterEnsure(old(svc.indexes), ConfiguredIndex(cfg), svc.createFailure)
      && svc.calls == old(svc.calls) + EnsureCalls(old(svc.indexes), ConfiguredIndex(cfg))
      && msg == if cfg.indexName in old(svc.indexes) then AlreadyExists(cfg.indexName)
                else if svc.createFailure.Some? then CreateError(svc.createFailure.value)
                else Created(ConfiguredIndex(cfg))
  {
    if cfg.endpoint == "" {
      return EndpointNotConfigured;
    }
    var found := svc.GetIndex(cfg.indexName);
    if found {
      return AlreadyExists(cfg.indexName);
    }
    var def := ConfiguredIndex(cfg);
    var failure := svc.CreateOrUpdateIndex(def);
    if failure.Some? {
      return CreateError(failure.value);
    }
    return Created(def);
  }

  /** The create tool's text starts with "Error" exactly when there is no
      endpoint or the creation failed, which is what the older ingest tool
      tests for. */
  lemma CreateMessageErrorIff(cfg: SearchConfig, existing: set<string>, failure: Option<string>)
    ensures var msg :=
        if cfg.endpoint == "" then EndpointNotConfigured
        else if cfg.indexName in existing then AlreadyExists(cfg.indexName)
        else if failure.Some? then CreateError(failure.value)
        else Created(ConfiguredIndex(cfg));
      (StartsWith(msg, "Error") <==> cfg.endpoint == "" || (cfg.indexName !in existing && failure.Some?))
  {
    if failure.Some? {
      var c := CreateError(failure.value);
      assert c[0] == 'E' && c[1] == 'r' && c[2] == 'r' && c[3] == 'o' && c[4] == 'r';
      assert c[..5] == ErrorWord;
    }
    assert AlreadyExists(cfg.indexName)[0] == 'I';
    assert Created(ConfiguredIndex(cfg))[0] == 'I';
  }

  /** `index_ingest_project_log` of `index.py`: the comma-separated tags are
      parsed, then the shared ingest runs. */
  method IngestProjectLog(svc: Service, cfg: SearchConfig, id: string, now: string,
                          entry: Entry, tagsCsv: string)
    returns (msg: string)
    modifies svc
    ensures var def := ConfiguredIndex(cfg);
      var doc := BuildDocument(id, now, entry.(tags := Some(ParseTags(tagsCsv))), svc.embedder(entry.context));
      && doc.tags == ParseTags(tagsCsv)
      && if cfg.endpoint == "" then
           msg == EndpointNotConfigured && svc.calls == old(svc.calls)
         else if cfg.indexName !in old(svc.indexes) && svc.createFailure.Some? then
           msg == CreateError(svc.createFailure.value)
           && svc.calls == old(svc.calls) + EnsureCalls(old(svc.indexes), def)
         else
           && svc.calls == old(svc.calls) + EnsureCalls(old(svc.indexes), def)
                           + [Embedding(entry.context), Upload(cfg.indexName, doc)]
           && msg == if true in svc.uploadResults(doc) then Ingested(id, entry) else IngestFailed
    ensures svc.indexes == if cfg.endpoint == "" then old(svc.indexes)
                           else AfterEnsure(old(svc.indexes), ConfiguredIndex(cfg), svc.createFailure)
  {
    var parsed := entry.(tags := Some(ParseTags(tagsCsv)));
    msg := IngestProjectLogDoc(svc, cfg, id, now, parsed);
    assert Ingested(id, parsed) == Ingested(id, entry);
  }

  /** `index_ingest_project_log` of `server.py`: without an endpoint nothing
      is requested; a missing index is created through the create tool, whose
      "Error…" text stops the ingest; then one embedding and one upload. */
  method ServerIngestProjectLog(svc: Service, cfg: SearchConfig, id: string, now: string,
                                entry: Entry, tagsCsv: string)
    returns (msg: string)
    modifies svc
    ensures var def := ConfiguredIndex(cfg);
      var doc := BuildDocument(id, now, entry.(tags := Some(ParseTags(tagsCsv))), svc.embedder(entry.context));
      var probe := [IndexLookup(cfg.indexName)];
      if cfg.endpoint == "" then
        msg == EndpointNotConfigured && svc.calls == old(svc.calls)
      else if cfg.indexName !in old(svc.indexes) && svc.createFailure.Some? then
        msg == CreateError(svc.createFailure.value)
        && svc.calls == old(svc.calls) + probe + EnsureCalls(old(svc.indexes), def)
      else
        && svc.calls == old(svc.calls) + probe
                        + (if cfg.indexName in old(svc.indexes) then [] else EnsureCalls(old(svc.indexes), def))
                        + [Embedding(entry.context), Upload(cfg.indexName, doc)]
        && msg == if true in svc.uploadResults(doc) then Ingested(id, entry) else IngestFailed
    ensures svc.indexes == if cfg.endpoint == "" then old(svc.indexes)
                           else AfterEnsure(old(svc.indexes), ConfiguredIndex(cfg), svc.createFailure)
  {
    if cfg.endpoint == "" {
      return EndpointNotConfigured;
    }
    var err := ServerEnsureIndex(svc, cfg);
    if err.Some? {
      return err.value;
    }
    var parsed := entry.(tags := Some(ParseTags(tagsCsv)));
    msg := EmbedAndUpload(svc, cfg, id, now, parsed);
    assert Ingested(id, parsed) == Ingested(id, entry);
  }

  /** The server's probe: look the index up, and only when it is missing
      call the create tool, whose "Error…" text is passed back. */
  method ServerEnsureIndex(svc: Service, cfg: SearchConfig) returns (err: Option<string>)
    requires cfg.endpoint != ""
    modifies svc
    ensures svc.indexes == AfterEnsure(old(svc.indexes), ConfiguredIndex(cfg), svc.createFailure)
    ensures svc.calls == old(svc.calls) + [IndexLookup(cfg.indexName)]
      + (if cfg.indexName in old(svc.indexes) then [] else EnsureCalls(old(svc.indexes), ConfiguredIndex(cfg)))
    ensures err.Some? <==> cfg.indexName !in old(svc.indexes) && svc.createFailure.Some?
    ensures err.Some? ==> err.value == CreateError(svc.createFailure.value)
  {
    var found := svc.GetIndex(cfg.indexName);
    if !found {
      var creation := CreateProjectLogIndex(svc, cfg);
      CreateMessageErrorIff(cfg, old(svc.indexes).Keys, svc.createFailure);
      if StartsWith(creation, "Error") {
        return Some(creation);
      }
    }
    return None;
  }
}
