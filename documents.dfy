/** The search document every ingest path uploads (`build_document` in
    `_client.py`, `_build_document` in `client.py`, and the dictionary
    literals of `server.py`), and the comma-separated tag parsing of the MCP
    tools. */
module Documents {
  import opened PyStrings

  /** A context embedding; its values come from the embedding service. */
  type Vector = seq<real>

  /** One document of the project-log index: exactly the thirteen keys of
      the dictionary the source builds. */
  datatype Document = Document(
    id: string,
    title: string,
    entryType: string,
    customerName: string,
    shortSummary: string,
    context: string,
    contextVector: Vector,
    projectName: string,
    tags: seq<string>,
    referenceUrl: string,
    architecture: string,
    creationDate: string,
    modifiedDate: string)

  /** The keyword arguments every ingest path passes on; `tags` may be
      `None`. */
  datatype Entry = Entry(
    title: string,
    entryType: string,
    customerName: string,
    shortSummary: string,
    context: string,
    projectName: string,
    tags: Option<seq<string>>,
    referenceUrl: string,
    architecture: string)

  /** The dictionary keys, in the order the source writes them. */
  const DocumentKeys: seq<string> := [
    "id", "title", "type", "customer_name", "short_summary", "context", "context_vector",
    "project_name", "tags", "reference_url", "architecture", "creation_date", "modified_date"]

  /** `tags or []`: `None` and the empty list both become `[]`. */
  function TagsOrEmpty(tags: Option<seq<string>>): (r: seq<string>)
    ensures r == [] <==> tags.None? || tags.value == []
    ensures tags.Some? ==> r == tags.value
  {
    match tags
    case None => []
    case Some(t) => t
  }

  /** The document for `entry`, with the generated `id`, the single
      timestamp `now` read once, and the embedding of the context. */
  function BuildDocument(id: string, now: string, entry: Entry, vector: Vector): Document {
    Document(id, entry.title, entry.entryType, entry.customerName, entry.shortSummary,
             entry.context, vector, entry.projectName, TagsOrEmpty(entry.tags),
             entry.referenceUrl, entry.architecture, now, now)
  }

  /** The keyword arguments a document was built from, with its tags. */
  function EntryOf(d: Document): Entry {
    Entry(d.title, d.entryType, d.customerName, d.shortSummary, d.context,
          d.projectName, Some(d.tags), d.referenceUrl, d.architecture)
  }

  /** Every input reaches the document unchanged, `type` is the entry type,
      both dates are the one `now`, and only the tags are normalised. */
  lemma BuildDocumentKeepsEntry(id: string, now: string, entry: Entry, vector: Vector)
    ensures var d := BuildDocument(id, now, entry, vector);
      && d.id == id && d.contextVector == vector
      && d.creationDate == now && d.modifiedDate == d.creationDate
      && EntryOf(d) == entry.(tags := Some(TagsOrEmpty(entry.tags)))
  {
  }

  /** Conversely, a document whose two dates agree is rebuilt from its own
      entry, id, date and vector. */
  lemma RebuildDocument(d: Document)
    requires d.creationDate == d.modifiedDate
    ensures BuildDocument(d.id, d.creationDate, EntryOf(d), d.contextVector) == d
  {
  }

  // ------------------------------------------------------------- tag CSV

  /** `[t.strip() for t in tags.split(",")] if tags else []`. */
  function ParseTags(csv: string): (r: seq<string>)
    ensures csv == "" ==> r == []
    ensures csv != "" ==> |r| == CountChar(csv, ',') + 1
    ensures forall k :: 0 <= k < |r| ==> IsStripped(r[k])
  {
    if csv == "" then []
    else
      var pieces := Split(csv, ",");
      SplitCharCount(csv, ',');
      var r := StripEach(pieces);
      assert forall k :: 0 <= k < |r| ==> IsStripped(r[k]) by {
        forall k | 0 <= k < |r| ensures IsStripped(r[k]) { StripSpec(pieces[k]); }
      }
      r
  }

  /** Each piece stripped, in order. */
  function StripEach(pieces: seq<string>): (r: seq<string>)
    ensures |r| == |pieces|
    ensures forall k :: 0 <= k < |r| ==> r[k] == Strip(pieces[k])
  {
    seq(|pieces|, k requires 0 <= k < |pieces| => Strip(pieces[k]))
  }

  /** A non-empty tag string is the comma-join of comma-free pieces, and the
      tags are exactly those pieces stripped, in order (empty pieces kept). */
  lemma ParseTagsPieces(csv: string)
    requires csv != ""
    ensures exists pieces: seq<string> ::
      && Join(",", pieces) == csv
      && |pieces| == |ParseTags(csv)|
      && (forall k :: 0 <= k < |pieces| ==> NoChar(pieces[k], ','))
      && (forall k :: 0 <= k < |pieces| ==> ParseTags(csv)[k] == Strip(pieces[k]))
  {
    var pieces := Split(csv, ",");
    SplitJoin(csv, ",");
    forall k | 0 <= k < |pieces| ensures NoChar(pieces[k], ',') {
      forall i | 0 <= i < |pieces[k]| ensures pieces[k][i] != ',' {
        assert !OccursAt(pieces[k], ",", i);
        assert pieces[k][i..i + 1] == [pieces[k][i]];
      }
    }
  }
}
