/**
 The source selection of a document import: a non-empty object-storage URI
 selects an object-storage source, anything else a warehouse-table source;
 either way the import reconciles incrementally.
 */
module ImportRequests {
  import opened Wrappers
  import opened Paths

  /** The schema tag of an object-storage import. */
  const DocumentSchema: string := "document"
  /** The schema tag of a warehouse-table import. */
  const CustomSchema: string := "custom"

  datatype GcsSource = GcsSource(inputUris: seq<string>, dataSchema: string)

  /**
   The string fields have no presence: a dataset or table left at `None` is
   stored as the empty string, the same as passing "".
   */
  datatype BigQuerySource = BigQuerySource(
    projectId: string,
    datasetId: string,
    tableId: string,
    dataSchema: string)

  datatype ReconciliationMode = Incremental | Full

  /** At most one of the two sources is meant to be set. */
  datatype ImportDocumentsRequest = ImportDocumentsRequest(
    parent: string,
    gcsSource: Option<GcsSource>,
    bigquerySource: Option<BigQuerySource>,
    reconciliationMode: ReconciliationMode)

  /**
   The request `import_documents` sends. `parent` is the data store's
   default-branch path, taken as given.
   */
  function ImportDocumentsRequestFor(
    b: Builder, parent: string, gcsUri: Option<string>,
    bigqueryDataset: Option<string>, bigqueryTable: Option<string>): (r: ImportDocumentsRequest)
    ensures r.parent == parent
    ensures r.gcsSource.Some? != r.bigquerySource.Some?
    ensures r.gcsSource.Some? <==> NonEmpty(gcsUri)
    ensures r.gcsSource.Some? ==> r.gcsSource.value.inputUris == [gcsUri.value] && r.gcsSource.value.dataSchema == DocumentSchema
    ensures r.bigquerySource.Some? ==>
              && r.bigquerySource.value.projectId == b.projectId
              && r.bigquerySource.value.datasetId == bigqueryDataset.GetOr("")
              && r.bigquerySource.value.tableId == bigqueryTable.GetOr("")
              && r.bigquerySource.value.dataSchema == CustomSchema
    ensures r.reconciliationMode == Incremental
  {
    if NonEmpty(gcsUri) then
      ImportDocumentsRequest(parent, Some(GcsSource([gcsUri.value], DocumentSchema)), None, Incremental)
    else
      ImportDocumentsRequest(parent, None, Some(BigQuerySource(b.projectId, bigqueryDataset.GetOr(""), bigqueryTable.GetOr(""), CustomSchema)), Incremental)
  }

  /** Where an import reads from, as the caller chose it. */
  datatype ImportSource =
    | FromGcs(uri: string)
    | FromBigQuery(datasetId: string, tableId: string)

  /** Reads the chosen source back out of a request; `None` when it has no usable source. */
  function SourceOf(r: ImportDocumentsRequest): Option<ImportSource> {
    if r.gcsSource.Some? && r.bigquerySource.None? && |r.gcsSource.value.inputUris| == 1 then
      Some(FromGcs(r.gcsSource.value.inputUris[0]))
    else if r.bigquerySource.Some? && r.gcsSource.None? then
      Some(FromBigQuery(r.bigquerySource.value.datasetId, r.bigquerySource.value.tableId))
    else
      None
  }

  /**
   The request records exactly the caller's choice: the URI when it is
   non-empty, otherwise the dataset and table, a missing one as "".
   */
  lemma ImportSourceRoundTrip(b: Builder, parent: string, gcsUri: Option<string>, dataset: Option<string>, table: Option<string>)
    ensures SourceOf(ImportDocumentsRequestFor(b, parent, gcsUri, dataset, table))
              == if NonEmpty(gcsUri) then Some(FromGcs(gcsUri.value)) else Some(FromBigQuery(dataset.GetOr(""), table.GetOr("")))
  {
  }

  /** With a non-empty URI, the warehouse arguments do not reach the request. */
  lemma GcsIgnoresBigQueryArguments(b: Builder, parent: string, uri: string, d1: Option<string>, t1: Option<string>, d2: Option<string>, t2: Option<string>)
    requires |uri| > 0
    ensures ImportDocumentsRequestFor(b, parent, Some(uri), d1, t1) == ImportDocumentsRequestFor(b, parent, Some(uri), d2, t2)
  {
  }

  /** A missing URI and an empty one select the same warehouse import. */
  lemma EmptyUriIsNoUri(b: Builder, parent: string, dataset: Option<string>, table: Option<string>)
    ensures ImportDocumentsRequestFor(b, parent, Some(""), dataset, table) == ImportDocumentsRequestFor(b, parent, None, dataset, table)
  {
  }

  /** A missing dataset or table and an empty one give the same warehouse import. */
  lemma MissingTableIsEmptyTable(b: Builder, parent: string, gcsUri: Option<string>)
    ensures ImportDocumentsRequestFor(b, parent, gcsUri, None, None) == ImportDocumentsRequestFor(b, parent, gcsUri, Some(""), Some(""))
  {
  }
}
