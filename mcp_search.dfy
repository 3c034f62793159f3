/** The `search_*` tools of the MCP server (`search.py`): a vector search
    whose hits are rendered as a numbered list, and the addition of one
    document to the index.  A search hit is the dictionary the search client
    returns, as JSON members, with its relevance score already formatted. */
module McpSearch {
  import opened PyStrings
  import opened JsonValues
  import opened Documents
  import opened SearchService

  const SearchNotConfigured: string :=
    EndpointNotConfigured + " Set this environment variable to your Azure AI Search endpoint."
  const AddFailed: string := "Failed to add document to vector database."

  // ---------------------------------------------------------------- search

  /** One search result: its selected fields, and `@search.score` as
      `format(score, ".4f")` when it is not `None`. */
  datatype SearchHit = SearchHit(fields: seq<Member>, score: Option<string>)

  function NoResults(query: string): string {
    "No results found for query: '" + query + "'"
  }

  function ResultsHeader(query: string): string {
    "## Search Results for: '" + query + "'\n"
  }

  /** `r.get("tags") or []`. */
  function HitTags(hit: SearchHit): Json {
    Or(Field(hit.fields, "tags", JNull), JArr([]))
  }

  function HitHeading(hit: SearchHit, number: nat): string {
    "### " + NatToString(number) + ". " + PyStr(Field(hit.fields, "title", JStr("Untitled")))
  }

  /** The block of the hit numbered `number`: heading and the four fields
      (each "N/A" when absent), the tags when there are any, the reference
      when it is truthy, the score when there is one, then a blank line.
      Joining tags that are not strings raises. */
  function HitLines(hit: SearchHit, number: nat): (r: Outcome<seq<string>>)
    ensures r.Ok? <==> TagsJoin(hit)
    ensures r.Err? ==> r.message == JoinStrs(", ", HitTags(hit)).message
    ensures r.Ok? ==>
      && |r.value| == 6 + (if Truthy(HitTags(hit)) then 1 else 0)
                        + (if Truthy(Field(hit.fields, "reference_url", JNull)) then 1 else 0)
                        + (if hit.score.Some? then 1 else 0)
      && r.value[0] == HitHeading(hit, number)
      && (Truthy(HitTags(hit)) ==> r.value[5] == "- **Tags**: " + JoinStrs(", ", HitTags(hit)).value)
      && r.value[|r.value| - 1] == ""
  {
    var tags := HitTags(hit);
    var tagLine := if Truthy(tags) then JoinStrs(", ", tags) else Ok("");
    match tagLine
    case Err(e) => Err(e)
    case Ok(joined) =>
      var fixed := HitFieldLines(hit, number);
      var optional := HitOptionalLines(hit, joined);
      assert (fixed + optional + [""])[0] == fixed[0];
      assert Truthy(tags) ==> (fixed + optional + [""])[5] == optional[0];
      Ok(fixed + optional + [""])
  }

  /** The heading and the four fields that every block shows. */
  function HitFieldLines(hit: SearchHit, number: nat): (r: seq<string>)
    ensures |r| == 5 && r[0] == HitHeading(hit, number)
  {
    var m := hit.fields;
    [HitHeading(hit, number),
     "- **Type**: " + PyStr(Field(m, "type", JStr("N/A"))),
     "- **Customer**: " + PyStr(Field(m, "customer_name", JStr("N/A"))),
     "- **Project**: " + PyStr(Field(m, "project_name", JStr("N/A"))),
     "- **Summary**: " + PyStr(Field(m, "short_summary", JStr("N/A")))]
  }

  /** The tag, reference and score lines, each only when it applies;
      `joined` is the joined tags. */
  function HitOptionalLines(hit: SearchHit, joined: string): (r: seq<string>)
    ensures |r| == (if Truthy(HitTags(hit)) then 1 else 0)
                   + (if Truthy(Field(hit.fields, "reference_url", JNull)) then 1 else 0)
                   + (if hit.score.Some? then 1 else 0)
    ensures Truthy(HitTags(hit)) ==> r[0] == "- **Tags**: " + joined
  {
    var reference := Field(hit.fields, "reference_url", JNull);
    (if Truthy(HitTags(hit)) then ["- **Tags**: " + joined] else [])
      + (if Truthy(reference) then ["- **Reference**: " + PyStr(reference)] else [])
      + (if hit.score.Some? then ["- **Relevance Score**: " + hit.score.value] else [])
  }

  /** The blocks of all hits, numbered from 1 in returned order, or the
      first join error. */
  function HitsListing(hits: seq<SearchHit>): Outcome<seq<string>> {
    if hits == [] then Ok([])
    else
      match HitsListing(hits[..|hits| - 1])
      case Err(e) => Err(e)
      case Ok(before) =>
        match HitLines(hits[|hits| - 1], |hits|)
        case Err(e) => Err(e)
        case Ok(block) => Ok(before + block)
  }

  /** A hit whose tags, if any, can be joined. */
  predicate TagsJoin(hit: SearchHit) {
    Truthy(HitTags(hit)) ==> JoinStrs(", ", HitTags(hit)).Ok?
  }

  /** When the tags of every hit can be joined, the listing succeeds. */
  lemma {:induction false} JoinedHitsList(hits: seq<SearchHit>)
    requires forall k :: 0 <= k < |hits| ==> TagsJoin(hits[k])
    ensures HitsListing(hits).Ok?
  {
    if hits != [] {
      var last := |hits| - 1;
      var prefix := hits[..last];
      forall k | 0 <= k < last ensures TagsJoin(prefix[k]) {
        assert prefix[k] == hits[k];
      }
      JoinedHitsList(prefix);
      assert TagsJoin(hits[last]);
    }
  }

  /** The hit at position `k` is listed under number `k + 1`. */
  lemma {:induction false} HitsNumbered(hits: seq<SearchHit>, k: nat)
    requires k < |hits| && HitsListing(hits).Ok?
    ensures HitHeading(hits[k], k + 1) in HitsListing(hits).value
  {
    var last := |hits| - 1;
    if k == last {
      var block := HitLines(hits[k], k + 1).value;
      assert block[0] in block;
    } else {
      assert hits[..last][k] == hits[k];
      HitsNumbered(hits[..last], k);
    }
  }

  /** The `enumerate(results, 1)` loop of `search_vector_db`. */
  method ListHits(hits: seq<SearchHit>) returns (r: Outcome<seq<string>>)
    ensures r == HitsListing(hits)
  {
    var blocks := [];
    var i := 0;
    while i < |hits|
      invariant 0 <= i <= |hits|
      invariant HitsListing(hits[..i]) == Ok(blocks)
    {
      assert hits[..i + 1][..i] == hits[..i];
      var block := HitLines(hits[i], i + 1);
      if block.Err? {
        HitsListingFails(hits, i + 1);
        return Err(block.message);
      }
      blocks := blocks + block.value;
      i := i + 1;
    }
    assert hits[..i] == hits;
    r := Ok(blocks);
  }

  /** A failing prefix makes the whole listing fail with its error. */
  lemma {:induction false} HitsListingFails(hits: seq<SearchHit>, n: nat)
    requires n <= |hits| && HitsListing(hits[..n]).Err?
    ensures HitsListing(hits) == HitsListing(hits[..n])
    decreases |hits| - n
  {
    if n < |hits| {
      var longer := hits[..n + 1];
      assert longer[..n] == hits[..n];
      HitsListingFails(hits, n + 1);
    } else {
      assert hits[..n] == hits;
    }
  }

  /** `search_vector_db`; `results` is what the embedding and the search
      answer for the query (`Err` for what either raises). */
  method SearchVectorDb(hasClient: bool, query: string, results: Outcome<seq<SearchHit>>)
    returns (text: string)
    ensures !hasClient ==> text == SearchNotConfigured
    ensures hasClient && results.Err? ==>
      text == "Error searching vector database: " + results.message
    ensures hasClient && results.Ok? && results.value == [] ==> text == NoResults(query)
    ensures hasClient && results.Ok? && results.value != [] ==>
      match HitsListing(results.value)
      case Err(e) => text == "Error searching vector database: " + e
      case Ok(blocks) => text == Join("\n", [ResultsHeader(query)] + blocks)
  {
    if !hasClient {
      return SearchNotConfigured;
    }
    if results.Err? {
      return "Error searching vector database: " + results.message;
    }
    if results.value == [] {
      return NoResults(query);
    }
    var listing := ListHits(results.value);
    match listing {
      case Err(e) => text := "Error searching vector database: " + e;
      case Ok(blocks) => text := Join("\n", [ResultsHeader(query)] + blocks);
    }
  }

  // ------------------------------------------------------------------ add

  function Added(id: string, title: string, entryType: string): string {
    "Document added to vector database.\n- **ID**: `" + id + "`\n- **Title**: " + title
      + "\n- **Type**: " + entryType
  }

  /** `search_add_to_vector_db`: the content is both the embedded text and
      the document's context, the comma-separated tags are parsed, and the
      addition succeeds exactly when some upload result succeeded.  `id`
      and `now` stand for the generated id and the timestamp. */
  method AddToVectorDb(svc: Service, cfg: SearchConfig, id: string, now: string,
                       title: string, content: string, entryType: string, customerName: string,
                       shortSummary: string, projectName: string, tags: string,
                       referenceUrl: string, architecture: string)
    returns (msg: string)
    modifies svc
    ensures svc.indexes == old(svc.indexes)
    ensures cfg.endpoint == "" ==> msg == EndpointNotConfigured && svc.calls == old(svc.calls)
    ensures cfg.endpoint != "" ==>
      var entry := Entry(title, entryType, customerName, shortSummary, content, projectName,
                         Some(ParseTags(tags)), referenceUrl, architecture);
      var doc := BuildDocument(id, now, entry, svc.embedder(content));
      && svc.calls == old(svc.calls) + [Embedding(content), Upload(cfg.indexName, doc)]
      && doc.context == content && doc.entryType == entryType && doc.tags == ParseTags(tags)
      && msg == if true in svc.uploadResults(doc) then Added(id, title, entryType) else AddFailed
  {
    if cfg.endpoint == "" {
      return EndpointNotConfigured;
    }
    var embedding := svc.Embed(content);
    var entry := Entry(title, entryType, customerName, shortSummary, content, projectName,
                       Some(ParseTags(tags)), referenceUrl, architecture);
    var document := BuildDocument(id, now, entry, embedding);
    var succeeded := svc.UploadDocument(cfg.indexName, document);
    CountSucceededPositive(svc.uploadResults(document));
    if succeeded > 0 {
      return Added(document.id, title, entryType);
    }
    return AddFailed;
  }
}
