/** The project-log index definition built by `_build_index_fields` (the
    same list in `_ingest.py`, `index.py` and `server.py`) together with its
    single HNSW vector profile. */
module IndexSchema {
  import opened PyStrings
  import Documents

  datatype FieldType = EdmString | SingleCollection | StringCollection | DateTimeOffset

  datatype SearchField = SearchField(
    name: string,
    fieldType: FieldType,
    key: bool,
    searchable: bool,
    filterable: bool,
    sortable: bool,
    facetable: bool,
    dimensions: Option<nat>,
    profile: Option<string>)

  /** Name of the vector search profile and of its HNSW algorithm. */
  const VectorProfile: string := "hnsw-profile"
  const VectorAlgorithm: string := "hnsw"

  /** A non-key, non-vector field. */
  function Plain(name: string, fieldType: FieldType, searchable: bool, filterable: bool,
                 sortable: bool, facetable: bool): SearchField
  {
    SearchField(name, fieldType, false, searchable, filterable, sortable, facetable, None, None)
  }

  function FieldNames(fields: seq<SearchField>): (names: seq<string>)
    ensures |names| == |fields|
    ensures forall k :: 0 <= k < |fields| ==> names[k] == fields[k].name
  {
    if fields == [] then [] else [fields[0].name] + FieldNames(fields[1..])
  }

  /** `_build_index_fields()` for an embedding of `dimensions` values. */
  function IndexFields(dimensions: nat): seq<SearchField> {
    [ SearchField("id", EdmString, true, false, true, false, false, None, None),
      Plain("title", EdmString, true, true, true, false),
      Plain("type", EdmString, true, true, false, true),
      Plain("customer_name", EdmString, true, true, false, true),
      Plain("short_summary", EdmString, true, false, false, false),
      Plain("context", EdmString, true, false, false, false),
      SearchField("context_vector", SingleCollection, false, false, false, false, false,
                  Some(dimensions), Some(VectorProfile)),
      Plain("project_name", EdmString, true, true, false, true),
      Plain("tags", StringCollection, true, true, false, true),
      Plain("reference_url", EdmString, true, false, false, false),
      Plain("architecture", EdmString, true, false, false, false),
      Plain("creation_date", DateTimeOffset, false, true, true, false),
      Plain("modified_date", DateTimeOffset, false, true, true, false) ]
  }

  predicate DistinctNames(fields: seq<SearchField>) {
    forall i, j :: 0 <= i < j < |fields| ==> fields[i].name != fields[j].name
  }

  /** The index has one field per document key, in the same order, with
      distinct names; `id` alone is the key; `context_vector` alone is a
      vector field, with the configured dimension and the HNSW profile. */
  lemma IndexFieldsShape(dimensions: nat)
    ensures var fields := IndexFields(dimensions);
      && |fields| == 13
      && FieldNames(fields) == Documents.DocumentKeys
      && DistinctNames(fields)
      && (forall k :: 0 <= k < |fields| ==> (fields[k].key <==> fields[k].name == "id"))
      && (forall k :: 0 <= k < |fields| ==> (fields[k].dimensions.Some? <==> fields[k].name == "context_vector"))
      && fields[6].name == "context_vector"
      && fields[6].dimensions == Some(dimensions)
      && fields[6].profile == Some(VectorProfile)
  {
    var fields := IndexFields(dimensions);
    IndexFieldNames(dimensions);
    forall i, j | 0 <= i < j < |fields| ensures fields[i].name != fields[j].name {
      DistinctKeys(i, j);
    }
    IndexKeyAndVector(dimensions);
  }

  /** Only `id` is the key and only `context_vector` carries dimensions. */
  lemma IndexKeyAndVector(dimensions: nat)
    ensures var fields := IndexFields(dimensions);
      && (forall k :: 0 <= k < |fields| ==> (fields[k].key <==> fields[k].name == "id"))
      && (forall k :: 0 <= k < |fields| ==> (fields[k].dimensions.Some? <==> fields[k].name == "context_vector"))
  {
    var fields := IndexFields(dimensions);
    IndexFieldNames(dimensions);
    forall k | 0 <= k < |fields|
      ensures fields[k].key <==> fields[k].name == "id"
      ensures fields[k].dimensions.Some? <==> fields[k].name == "context_vector"
    {
      if k != 0 { DistinctKeys(0, k); }
      if k < 6 { DistinctKeys(k, 6); } else if k > 6 { DistinctKeys(6, k); }
    }
  }

  /** The field names are the document keys, position by position. */
  lemma IndexFieldNames(dimensions: nat)
    ensures |IndexFields(dimensions)| == |Documents.DocumentKeys|
    ensures forall k :: 0 <= k < |IndexFields(dimensions)| ==>
      IndexFields(dimensions)[k].name == Documents.DocumentKeys[k]
    ensures FieldNames(IndexFields(dimensions)) == Documents.DocumentKeys
  {
    var names := FieldNames(IndexFields(dimensions));
    assert names == Documents.DocumentKeys;
  }

  /** The thirteen document keys are pairwise different. */
  lemma DistinctKeys(i: int, j: int)
    requires 0 <= i < j < |Documents.DocumentKeys|
    ensures Documents.DocumentKeys[i] != Documents.DocumentKeys[j]
  {
    var keys := Documents.DocumentKeys;
    if |keys[i]| == |keys[j]| {
      assert keys[i][0] != keys[j][0] || keys[i][1] != keys[j][1] || keys[i][2] != keys[j][2];
    }
  }

  /** The `SearchIndex` handed to `create_or_update_index`. */
  datatype IndexDefinition = IndexDefinition(
    name: string,
    fields: seq<SearchField>,
    profileName: string,
    algorithmName: string)

  function ProjectLogIndex(indexName: string, dimensions: nat): IndexDefinition {
    IndexDefinition(indexName, IndexFields(dimensions), VectorProfile, VectorAlgorithm)
  }
}
