/** The inputs of the write and alias operations: index queries, update
    queries, alias actions and bulk options. They are built once by the
    caller and only read by the request factory, so they are values here. */
module Operations {
  import opened Wrappers
  import opened Elastic
  import opened Query

  /** Spring Data's refresh policy. */
  datatype RefreshPolicy = RefreshNone | Immediate | WaitUntil

  /** Spring Data's script type. */
  datatype ScriptType = Inline | Stored

  /** `IndexQuery.OpType` */
  datatype IndexOpType = IndexOp | CreateOp

  /** An entity object handed to an index query: its class and the value of
      its identifier property, if it has one and it is set (as `toString()`). */
  datatype EntityObject = EntityObject(typeName: string, identifier: Option<string>)

  /** A document given as a map of field values. */
  datatype Document = Document(handle: nat)

  datatype IndexQuery = IndexQuery(
    id: Option<string>,
    obj: Option<EntityObject>,
    source: Option<string>,
    version: Option<int>,
    seqNo: Option<int>,
    primaryTerm: Option<int>,
    routing: Option<string>,
    opType: Option<IndexOpType>)

  /** `UpdateQuery`, for a single-document update and for update-by-query. */
  datatype UpdateQuery = UpdateQuery(
    id: Option<string>,
    script: Option<string>,
    params: Option<map<string, Value>>,
    document: Option<Document>,
    upsert: Option<Document>,
    lang: Option<string>,
    routing: Option<string>,
    scriptedUpsert: Option<bool>,
    docAsUpsert: Option<bool>,
    fetchSource: Option<bool>,
    fetchSourceIncludes: Option<seq<string>>,
    fetchSourceExcludes: Option<seq<string>>,
    ifSeqNo: Option<int>,
    ifPrimaryTerm: Option<int>,
    refreshPolicy: Option<RefreshPolicy>,
    retryOnConflict: Option<int>,
    timeout: Option<string>,
    waitForActiveShards: Option<string>,
    query: Option<QueryState>,
    abortOnVersionConflict: Option<bool>,
    batchSize: Option<int>,
    maxDocs: Option<int>,
    maxRetries: Option<int>,
    pipeline: Option<string>,
    requestsPerSecond: Option<real>,
    shouldStoreResult: Option<bool>,
    slices: Option<int>,
    scriptType: Option<ScriptType>,
    scriptName: Option<string>)

  /** An update query with only its id set, as `UpdateQuery.builder(id).build()` makes it. */
  function UpdateQueryFor(id: Option<string>): UpdateQuery {
    UpdateQuery(id, None, None, None, None, None, None, None, None, None, None, None, None, None, None,
                None, None, None, None, None, None, None, None, None, None, None, None, None, None)
  }

  /** `AliasActionParameters`; the filter query is carried as the state of the query object. */
  datatype AliasActionParameters = AliasActionParameters(
    indices: seq<string>,
    aliases: Option<seq<string>>,
    routing: Option<string>,
    indexRouting: Option<string>,
    searchRouting: Option<string>,
    hidden: Option<bool>,
    writeIndex: Option<bool>,
    filterQuery: Option<QueryState>,
    filterQueryClass: Option<string>)

  datatype AliasAction =
    | Add(parameters: AliasActionParameters)
    | Remove(parameters: AliasActionParameters)
    | RemoveIndex(parameters: AliasActionParameters)

  datatype BulkOptions = BulkOptions(
    timeout: Option<Duration>,
    refreshPolicy: Option<RefreshPolicy>,
    waitForActiveShards: Option<int>,
    pipeline: Option<string>,
    routingId: Option<string>)

  /** An element of the list handed to `bulkRequest`: an index query, an
      update query, or any other object. */
  datatype BulkElement =
    | IndexElement(indexQuery: IndexQuery)
    | UpdateElement(updateQuery: UpdateQuery)
    | OtherElement(className: string)
}
