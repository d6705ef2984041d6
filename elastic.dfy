/** The Elasticsearch client library objects that the translation produces or
    passes through. Builders whose internals are the library's own business
    (queries built elsewhere, highlighters, collapse, aggregations, index
    options) are opaque handles: the model only records which one is passed
    where. */
module Elastic {
  import opened Wrappers

  /** A query builder. `Native` is one the caller built; `Wrapper` is
      `wrapperQuery(source)`; `FromCriteria` is what the criteria processors
      build from criteria number `criteria`, as a scoring query or as a filter. */
  datatype QueryBuilder =
    | Native(handle: nat)
    | Wrapper(source: string)
    | FromCriteria(criteria: nat, asFilter: bool)

  datatype SortOrder = Asc | Desc

  /** Distance type, unit, mode, point and ignore-unmapped flag of a geo-distance sort. */
  datatype GeoDistanceParams = GeoDistanceParams(handle: nat)

  /** A sort builder: `_score`, a field sort with its optional `missing`
      value, a geo-distance sort, or one the caller built natively. */
  datatype SortBuilder =
    | ScoreSort(order: SortOrder)
    | FieldSort(fieldName: string, order: SortOrder, missing: Option<string>)
    | GeoDistanceSort(fieldName: string, geo: GeoDistanceParams, sortOrder: Option<SortOrder>)
    | NativeSort(handle: nat)

  datatype HighlightBuilder = HighlightBuilder(handle: nat)
  datatype HighlightField = HighlightField(handle: nat)
  datatype CollapseBuilder = CollapseBuilder(handle: nat)
  datatype Aggregation = Aggregation(handle: nat)
  datatype PipelineAggregation = PipelineAggregation(handle: nat)
  datatype IndicesOptions = IndicesOptions(handle: nat)

  /** A script field of a native query: its name and its script. */
  datatype ScriptField = ScriptField(fieldName: string, script: nat)

  /** Per-index score boost of a native query (the boost is a float, kept as a real). */
  datatype IndexBoost = IndexBoost(indexName: string, boost: real)

  /** A value in a sort-values or search-after list, or a script parameter. */
  datatype Value = Value(handle: nat)

  datatype Explanation = Explanation(handle: nat)
  datatype Aggregations = Aggregations(handle: nat)

  /** A duration in milliseconds. */
  datatype Duration = Duration(millis: nat)

  /** `org.elasticsearch.script.ScriptType`. */
  datatype ScriptKind = InlineScript | StoredScript

  /** `new Script(type, lang, idOrCode, params)`. */
  datatype Script = Script(kind: ScriptKind, lang: Option<string>, idOrCode: string, params: map<string, Value>)

  /** `WriteRequest.RefreshPolicy`. */
  datatype WriteRefreshPolicy = WriteNone | WriteImmediate | WriteWaitUntil

  /** `org.elasticsearch.index.VersionType`. */
  datatype VersionType = VersionInternal | VersionExternal | VersionExternalGte

  /** `DocWriteRequest.OpType`. */
  datatype OpType = OpIndex | OpCreate

  /** `org.elasticsearch.action.search.SearchType`. */
  datatype RequestSearchType = QueryThenFetchSearch | DfsQueryThenFetchSearch

  /** `QueryRescoreMode`. */
  datatype QueryRescoreMode = RescoreAvg | RescoreMax | RescoreMin | RescoreTotal | RescoreMultiply

  /** `FetchSourceContext`: whether to fetch the source, and the include and exclude patterns. */
  datatype FetchSourceContext = FetchSourceContext(fetchSource: bool, includes: seq<string>, excludes: seq<string>)

  /** `UpdateRequest.fetchSource(boolean)`: keeps the patterns of the current context. */
  function WithFetchFlag(current: Option<FetchSourceContext>, fetch: bool): FetchSourceContext
  {
    match current
    case None => FetchSourceContext(fetch, [], [])
    case Some(c) => FetchSourceContext(fetch, c.includes, c.excludes)
  }

  /** `UpdateRequest.fetchSource(includes, excludes)`: keeps the flag of the current context. */
  function WithFetchPatterns(current: Option<FetchSourceContext>, includes: seq<string>, excludes: seq<string>): FetchSourceContext
  {
    match current
    case None => FetchSourceContext(true, includes, excludes)
    case Some(c) => FetchSourceContext(c.fetchSource, includes, excludes)
  }
}
