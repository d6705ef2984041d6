/** The Elasticsearch requests the factory builds, as records: every setter
    the factory may call is a field, `None` where the factory leaves the
    library default in place. */
module Requests {
  import opened Wrappers
  import opened Elastic
  import opened Query
  import opened Operations

  /** `IndexCoordinates`: one or more index names; `getIndexName()` is the first. */
  datatype IndexCoordinates = IndexCoordinates(indexNames: seq<string>)

  type Index = ic: IndexCoordinates | |ic.indexNames| > 0 witness IndexCoordinates(["index"])

  function IndexName(index: Index): string {
    index.indexNames[0]
  }

  /** The exceptions the translation throws. */
  datatype Error =
    | UnhandledQueryImplementation(className: string)
    | ObjectOrSourceNull(id: Option<string>)
    | IndexOutOfBounds

  /** The highlighter of a search: built from the query's highlight query, or
      a native query's own builder (a new one when it has none) with the
      native highlight fields added. */
  datatype Highlighter =
    | FromHighlightQuery(highlightQuery: HighlightQuery)
    | NativeHighlighter(base: Option<HighlightBuilder>, fields: seq<HighlightField>)

  datatype Rescorer = Rescorer(
    query: Option<QueryBuilder>,
    scoreMode: Option<QueryRescoreMode>,
    queryWeight: Option<real>,
    rescoreQueryWeight: Option<real>,
    windowSize: Option<int>)

  /** Total-hits tracking: on or off, or counted up to a limit. */
  datatype TrackTotalHits = TrackHits(enabled: bool) | TrackHitsUpTo(limit: int)

  /** `SearchSourceBuilder`; `from` and `size` are -1 until set. */
  datatype SearchSource = SearchSource(
    version: Option<bool>,
    trackScores: bool,
    seqNoAndPrimaryTerm: Option<bool>,
    from: int,
    size: int,
    fetchSource: Option<FetchSourceContext>,
    fetchFields: seq<string>,
    minScore: Option<real>,
    sorts: seq<SortBuilder>,
    highlighter: Option<Highlighter>,
    scriptFields: seq<ScriptField>,
    collapse: Option<CollapseBuilder>,
    indexBoosts: seq<IndexBoost>,
    aggregations: seq<Aggregation>,
    pipelineAggregations: seq<PipelineAggregation>,
    trackTotalHits: Option<TrackTotalHits>,
    timeout: Option<Duration>,
    explain: Option<bool>,
    searchAfter: Option<seq<Value>>,
    rescorers: seq<Rescorer>,
    query: Option<QueryBuilder>,
    postFilter: Option<QueryBuilder>)

  /** `new SearchSourceBuilder()` */
  const EmptySource := SearchSource(None, false, None, -1, -1, None, [], None, [], None, [], None, [], [], [],
                                    None, None, None, None, [], None, None)

  datatype SearchRequest = SearchRequest(
    indices: seq<string>,
    indicesOptions: Option<IndicesOptions>,
    preference: Option<string>,
    searchType: RequestSearchType,
    routing: Option<string>,
    requestCache: Option<bool>,
    source: SearchSource)

  datatype MultiGetItem = MultiGetItem(index: string, id: string, routing: Option<string>, fetchSource: Option<FetchSourceContext>)

  datatype DeleteByQueryRequest = DeleteByQueryRequest(
    indices: seq<string>,
    query: Option<QueryBuilder>,
    abortOnVersionConflict: bool,
    refresh: bool,
    batchSize: Option<int>,
    scroll: Option<Duration>,
    routing: Option<string>)

  /** The source of an index request: the JSON the converter maps the object
      to, or the source string of the query. */
  datatype IndexSource = MappedObject(obj: EntityObject) | JsonSource(json: string)

  datatype IndexRequest = IndexRequest(
    index: string,
    id: Option<string>,
    source: IndexSource,
    version: Option<int>,
    versionType: Option<VersionType>,
    ifSeqNo: Option<int>,
    ifPrimaryTerm: Option<int>,
    routing: Option<string>,
    opType: Option<OpType>)

  datatype UpdateRequest = UpdateRequest(
    index: string,
    id: Option<string>,
    script: Option<Script>,
    doc: Option<Document>,
    upsert: Option<Document>,
    routing: Option<string>,
    scriptedUpsert: Option<bool>,
    docAsUpsert: Option<bool>,
    fetchSource: Option<FetchSourceContext>,
    ifSeqNo: Option<int>,
    ifPrimaryTerm: Option<int>,
    refreshPolicy: Option<WriteRefreshPolicy>,
    retryOnConflict: Option<int>,
    timeout: Option<string>,
    waitForActiveShards: Option<string>)

  datatype UpdateByQueryRequest = UpdateByQueryRequest(
    index: string,
    script: Option<Script>,
    abortOnVersionConflict: Option<bool>,
    batchSize: Option<int>,
    query: Option<QueryBuilder>,
    indicesOptions: Option<IndicesOptions>,
    scroll: Option<Duration>,
    maxDocs: Option<int>,
    maxRetries: Option<int>,
    pipeline: Option<string>,
    refresh: Option<bool>,
    requestsPerSecond: Option<real>,
    routing: Option<string>,
    shouldStoreResult: Option<bool>,
    slices: Option<int>,
    timeout: Option<string>,
    waitForActiveShards: Option<string>)

  datatype DocWriteRequest = IndexWrite(indexRequest: IndexRequest) | UpdateWrite(updateRequest: UpdateRequest)

  datatype BulkRequest = BulkRequest(
    timeout: Option<Duration>,
    refreshPolicy: Option<WriteRefreshPolicy>,
    waitForActiveShards: Option<int>,
    pipeline: Option<string>,
    routing: Option<string>,
    requests: seq<DocWriteRequest>)

  datatype AliasActionType = AddAlias | RemoveAlias | RemoveIndexAction

  /** `IndicesAliasesRequest.AliasActions` */
  datatype AliasActionRequest = AliasActionRequest(
    actionType: AliasActionType,
    indices: seq<string>,
    aliases: Option<seq<string>>,
    routing: Option<string>,
    indexRouting: Option<string>,
    searchRouting: Option<string>,
    hidden: Option<bool>,
    writeIndex: Option<bool>,
    filter: Option<QueryBuilder>)

  /** `IndicesAliasesRequest.AliasActions.add()`, `.remove()`, `.removeIndex()` before any setter. */
  function NewAliasAction(t: AliasActionType): AliasActionRequest {
    AliasActionRequest(t, [], None, None, None, None, None, None, None)
  }
}
