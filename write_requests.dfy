/** The indexing, update and bulk region of the request factory: index
    requests from index queries, update and update-by-query requests from
    update queries, and bulk requests from a list of both. */
module WriteRequests {
  import opened Wrappers
  import opened Elastic
  import opened Metadata
  import opened Query
  import opened Operations
  import opened Requests
  import opened FactoryHelpers

  // ---------------------------------------------------------------- index

  function OpTypeOf(t: IndexOpType): (r: OpType)
    ensures r == OpCreate <==> t == CreateOp
  {
    match t
    case IndexOp => OpIndex
    case CreateOp => OpCreate
  }

  /** The id of an index request for an object: the query's id unless it is
      absent or empty, then the object's entity identifier (absent: the
      engine generates one). */
  function ObjectIdOf(ctx: MappingContext, query: IndexQuery, obj: EntityObject): Option<string> {
    if query.id.None? || query.id.value == "" then PersistentEntityId(ctx, obj) else query.id
  }

  /** `indexRequest`: an object or a source string is required; the version
      type is set along with a version, and taken from the object's entity. */
  function IndexRequestOf(ctx: MappingContext, query: IndexQuery, index: Index): Result<IndexRequest, Error> {
    var base :-
      if query.obj.Some? then
        Success(IndexRequest(IndexName(index), ObjectIdOf(ctx, query, query.obj.value), MappedObject(query.obj.value),
                             None, None, None, None, None, None))
      else if query.source.Some? then
        Success(IndexRequest(IndexName(index), query.id, JsonSource(query.source.value),
                             None, None, None, None, None, None))
      else
        Failure(ObjectOrSourceNull(query.id));
    var objectClass := if query.obj.Some? then Some(query.obj.value.typeName) else None;
    Success(base.(version := query.version,
                  versionType := if query.version.Some? then Some(VersionTypeOf(ctx, objectClass)) else None,
                  ifSeqNo := query.seqNo,
                  ifPrimaryTerm := query.primaryTerm,
                  routing := query.routing,
                  opType := if query.opType.Some? then Some(OpTypeOf(query.opType.value)) else None))
  }

  /** The index-request rules: it fails exactly when the query has neither an
      object nor a source; an object's request uses the query id when it is
      non-empty and the entity identifier otherwise, a source's request the
      query id; a version brings a version type, the entity's declared one
      or EXTERNAL; the optimistic-locking pair is copied independently of
      the version; an operation type is converted when one is set. */
  lemma IndexRequestRules(ctx: MappingContext, query: IndexQuery, index: Index)
    ensures IndexRequestOf(ctx, query, index).Failure? <==> query.obj.None? && query.source.None?
    ensures IndexRequestOf(ctx, query, index).Failure? ==>
      IndexRequestOf(ctx, query, index).error == ObjectOrSourceNull(query.id)
    ensures IndexRequestOf(ctx, query, index).Success? ==>
      var r := IndexRequestOf(ctx, query, index).value;
      r.index == IndexName(index) &&
      (query.obj.Some? && query.id.Some? && query.id.value != "" ==> r.id == query.id) &&
      (query.obj.Some? && (query.id.None? || query.id.value == "") ==>
        r.id == (if query.obj.value.typeName in ctx then query.obj.value.identifier else None)) &&
      (query.obj.Some? ==> r.source == MappedObject(query.obj.value)) &&
      (query.obj.None? ==> r.id == query.id && r.source == JsonSource(query.source.value)) &&
      r.version == query.version &&
      (r.versionType.Some? <==> query.version.Some?) &&
      (query.version.Some? && query.obj.None? ==> r.versionType == Some(VersionExternal)) &&
      (query.version.Some? && query.obj.Some? ==>
        r.versionType == Some(VersionTypeOf(ctx, Some(query.obj.value.typeName)))) &&
      r.ifSeqNo == query.seqNo && r.ifPrimaryTerm == query.primaryTerm &&
      r.routing == query.routing &&
      r.opType == (if query.opType.Some? then Some(OpTypeOf(query.opType.value)) else None)
  {
  }

  // --------------------------------------------------------------- update

  /** The fetch-source context of an update request: the flag when one is
      given, then, when either pattern list is given, both lists, a missing
      one as an empty list. */
  function UpdateFetchSourceOf(u: UpdateQuery): Option<FetchSourceContext> {
    var flagged := if u.fetchSource.Some? then Some(WithFetchFlag(None, u.fetchSource.value)) else None;
    if u.fetchSourceIncludes.Some? || u.fetchSourceExcludes.Some? then
      Some(WithFetchPatterns(flagged, u.fetchSourceIncludes.GetOr([]), u.fetchSourceExcludes.GetOr([])))
    else
      flagged
  }

  /** Setting patterns keeps the flag (fetching by default), setting only the
      flag fetches with no patterns, and setting neither leaves the request's
      default in place. */
  lemma UpdateFetchSourceRules(u: UpdateQuery)
    ensures u.fetchSourceIncludes.Some? || u.fetchSourceExcludes.Some? ==>
      UpdateFetchSourceOf(u) == Some(FetchSourceContext(
        if u.fetchSource.Some? then u.fetchSource.value else true,
        if u.fetchSourceIncludes.Some? then u.fetchSourceIncludes.value else [],
        if u.fetchSourceExcludes.Some? then u.fetchSourceExcludes.value else []))
    ensures u.fetchSourceIncludes.None? && u.fetchSourceExcludes.None? && u.fetchSource.Some? ==>
      UpdateFetchSourceOf(u) == Some(FetchSourceContext(u.fetchSource.value, [], []))
    ensures UpdateFetchSourceOf(u).None? <==>
      u.fetchSourceIncludes.None? && u.fetchSourceExcludes.None? && u.fetchSource.None?
  {
  }

  /** The script of a single-document update: the source as an inline script
      (or stored, if so typed) with the query's language. */
  function UpdateScriptOf(u: UpdateQuery): Option<Script> {
    if u.script.Some? then Some(Script(ScriptKindOf(u.scriptType), u.lang, u.script.value, u.params.GetOr(map[])))
    else None
  }

  /** `updateRequest` */
  function UpdateRequestOf(u: UpdateQuery, index: Index): UpdateRequest {
    UpdateRequest(IndexName(index), u.id, UpdateScriptOf(u), u.document, u.upsert, u.routing,
                  u.scriptedUpsert, u.docAsUpsert, UpdateFetchSourceOf(u), u.ifSeqNo, u.ifPrimaryTerm,
                  if u.refreshPolicy.Some? then Some(ToWriteRefreshPolicy(u.refreshPolicy.value)) else None,
                  u.retryOnConflict, u.timeout, u.waitForActiveShards)
  }

  /** `updateRequest`, option by option. */
  method BuildUpdateRequest(u: UpdateQuery, index: Index) returns (r: UpdateRequest)
    ensures r == UpdateRequestOf(u, index)
  {
    r := UpdateRequest(IndexName(index), u.id, None, None, None, None, None, None, None, None, None, None, None, None, None);
    r := SetUpdateContent(u, r);
    r := SetUpdateFetchSource(u, r);
    r := SetUpdateConcurrency(u, r);
  }

  /** The script, documents, routing and upsert flags of an update request. */
  method SetUpdateContent(u: UpdateQuery, request: UpdateRequest) returns (r: UpdateRequest)
    requires request.script.None? && request.doc.None? && request.upsert.None? && request.routing.None?
    requires request.scriptedUpsert.None? && request.docAsUpsert.None?
    ensures r == request.(script := UpdateScriptOf(u), doc := u.document, upsert := u.upsert, routing := u.routing,
                          scriptedUpsert := u.scriptedUpsert, docAsUpsert := u.docAsUpsert)
  {
    r := request;
    if u.script.Some? {
      var params := if u.params.Some? then u.params.value else map[];
      r := r.(script := Some(Script(ScriptKindOf(u.scriptType), u.lang, u.script.value, params)));
    }
    if u.document.Some? {
      r := r.(doc := u.document);
    }
    if u.upsert.Some? {
      r := r.(upsert := u.upsert);
    }
    if u.routing.Some? {
      r := r.(routing := u.routing);
    }
    if u.scriptedUpsert.Some? {
      r := r.(scriptedUpsert := u.scriptedUpsert);
    }
    if u.docAsUpsert.Some? {
      r := r.(docAsUpsert := u.docAsUpsert);
    }
  }

  /** The fetch-source context of an update request: first the flag, then the patterns. */
  method SetUpdateFetchSource(u: UpdateQuery, request: UpdateRequest) returns (r: UpdateRequest)
    requires request.fetchSource.None?
    ensures r == request.(fetchSource := UpdateFetchSourceOf(u))
  {
    r := request;
    if u.fetchSource.Some? {
      r := r.(fetchSource := Some(WithFetchFlag(r.fetchSource, u.fetchSource.value)));
    }
    if u.fetchSourceIncludes.Some? || u.fetchSourceExcludes.Some? {
      var includes := if u.fetchSourceIncludes.Some? then u.fetchSourceIncludes.value else [];
      var excludes := if u.fetchSourceExcludes.Some? then u.fetchSourceExcludes.value else [];
      r := r.(fetchSource := Some(WithFetchPatterns(r.fetchSource, includes, excludes)));
    }
  }

  /** The concurrency, refresh, retry, timeout and shard options of an update request. */
  method SetUpdateConcurrency(u: UpdateQuery, request: UpdateRequest) returns (r: UpdateRequest)
    requires request.ifSeqNo.None? && request.ifPrimaryTerm.None? && request.refreshPolicy.None?
    requires request.retryOnConflict.None? && request.timeout.None? && request.waitForActiveShards.None?
    ensures r == request.(ifSeqNo := u.ifSeqNo, ifPrimaryTerm := u.ifPrimaryTerm,
                          refreshPolicy := if u.refreshPolicy.Some? then Some(ToWriteRefreshPolicy(u.refreshPolicy.value)) else None,
                          retryOnConflict := u.retryOnConflict, timeout := u.timeout,
                          waitForActiveShards := u.waitForActiveShards)
  {
    r := request;
    if u.ifSeqNo.Some? {
      r := r.(ifSeqNo := u.ifSeqNo);
    }
    if u.ifPrimaryTerm.Some? {
      r := r.(ifPrimaryTerm := u.ifPrimaryTerm);
    }
    if u.refreshPolicy.Some? {
      r := r.(refreshPolicy := Some(ToWriteRefreshPolicy(u.refreshPolicy.value)));
    }
    if u.retryOnConflict.Some? {
      r := r.(retryOnConflict := u.retryOnConflict);
    }
    if u.timeout.Some? {
      r := r.(timeout := u.timeout);
    }
    if u.waitForActiveShards.Some? {
      r := r.(waitForActiveShards := u.waitForActiveShards);
    }
  }

  /** The update query of the all-options test: id "1", a document, sequence
      number 42 and primary term 13, script "script" in language "lang",
      refresh WAIT_UNTIL, 7 retries, timeout "4711s", all active shards,
      includes ["incl"] and excludes ["excl"]. */
  function AllOptionsUpdateQuery(doc: Document): UpdateQuery {
    UpdateQueryFor(Some("1")).(document := Some(doc), ifSeqNo := Some(42), ifPrimaryTerm := Some(13),
                               script := Some("script"), lang := Some("lang"), refreshPolicy := Some(WaitUntil),
                               retryOnConflict := Some(7), timeout := Some("4711s"), waitForActiveShards := Some("all"),
                               fetchSourceIncludes := Some(["incl"]), fetchSourceExcludes := Some(["excl"]))
  }

  /** Every option of that query reaches the update request. */
  lemma AllOptionsReachUpdateRequest(doc: Document, index: Index)
    ensures var r := UpdateRequestOf(AllOptionsUpdateQuery(doc), index);
      r.ifSeqNo == Some(42) && r.ifPrimaryTerm == Some(13) &&
      r.script.Some? && r.script.value.idOrCode == "script" && r.script.value.lang == Some("lang") &&
      r.script.value.kind == InlineScript &&
      r.refreshPolicy == Some(WriteWaitUntil) && r.retryOnConflict == Some(7) &&
      r.timeout == Some("4711s") && r.waitForActiveShards == Some("all") &&
      r.fetchSource == Some(FetchSourceContext(true, ["incl"], ["excl"]))
  {
  }

  // ------------------------------------------------------ update by query

  /** `updateByQueryRequest`: the script `getScript` selects, the options that
      are set, and from the query (when there is one) its scoring query,
      index options and scroll time; refresh only for IMMEDIATE. */
  function UpdateByQueryRequestOf(u: UpdateQuery, index: Index): Result<UpdateByQueryRequest, Error> {
    var query :- if u.query.Some? then QueryOf(u.query.value) else Success(None);
    Success(UpdateByQueryRequest(
      IndexName(index), ScriptOf(u), u.abortOnVersionConflict, u.batchSize, query,
      if u.query.Some? then u.query.value.indicesOptions else None,
      if u.query.Some? then u.query.value.scrollTime else None,
      u.maxDocs, u.maxRetries, u.pipeline,
      if u.refreshPolicy.Some? then Some(u.refreshPolicy.value == Immediate) else None,
      u.requestsPerSecond, u.routing, u.shouldStoreResult, u.slices, u.timeout, u.waitForActiveShards))
  }

  /** `updateByQueryRequest`, option by option. */
  method BuildUpdateByQueryRequest(u: UpdateQuery, index: Index) returns (r: Result<UpdateByQueryRequest, Error>)
    ensures r == UpdateByQueryRequestOf(u, index)
  {
    var request := UpdateByQueryRequest(IndexName(index), None, None, None, None, None, None, None, None, None,
                                        None, None, None, None, None, None, None);
    request := request.(script := ScriptOf(u));
    if u.abortOnVersionConflict.Some? {
      request := request.(abortOnVersionConflict := u.abortOnVersionConflict);
    }
    if u.batchSize.Some? {
      request := request.(batchSize := u.batchSize);
    }
    if u.query.Some? {
      var q := u.query.value;
      var query := QueryOf(q);
      if query.Failure? {
        return Failure(query.error);
      }
      request := request.(query := query.value);
      if q.indicesOptions.Some? {
        request := request.(indicesOptions := q.indicesOptions);
      }
      if q.scrollTime.Some? {
        request := request.(scroll := q.scrollTime);
      }
    }
    request := SetByQueryOptions(u, request);
    r := Success(request);
  }

  /** The options of an update-by-query request that come from the update query itself. */
  method SetByQueryOptions(u: UpdateQuery, request: UpdateByQueryRequest) returns (r: UpdateByQueryRequest)
    requires request.maxDocs.None? && request.maxRetries.None? && request.pipeline.None? && request.refresh.None?
    requires request.requestsPerSecond.None? && request.routing.None? && request.shouldStoreResult.None?
    requires request.slices.None? && request.timeout.None? && request.waitForActiveShards.None?
    ensures r == request.(maxDocs := u.maxDocs, maxRetries := u.maxRetries, pipeline := u.pipeline,
                          refresh := if u.refreshPolicy.Some? then Some(u.refreshPolicy.value == Immediate) else None,
                          requestsPerSecond := u.requestsPerSecond, routing := u.routing,
                          shouldStoreResult := u.shouldStoreResult, slices := u.slices, timeout := u.timeout,
                          waitForActiveShards := u.waitForActiveShards)
  {
    r := request;
    if u.maxDocs.Some? {
      r := r.(maxDocs := u.maxDocs);
    }
    if u.maxRetries.Some? {
      r := r.(maxRetries := u.maxRetries);
    }
    if u.pipeline.Some? {
      r := r.(pipeline := u.pipeline);
    }
    if u.refreshPolicy.Some? {
      r := r.(refresh := Some(u.refreshPolicy.value == Immediate));
    }
    if u.requestsPerSecond.Some? {
      r := r.(requestsPerSecond := u.requestsPerSecond);
    }
    r := SetByQueryExecution(u, r);
  }

  /** The routing, result storage, slicing, timeout and shard options of an update-by-query request. */
  method SetByQueryExecution(u: UpdateQuery, request: UpdateByQueryRequest) returns (r: UpdateByQueryRequest)
    requires request.routing.None? && request.shouldStoreResult.None?
    requires request.slices.None? && request.timeout.None? && request.waitForActiveShards.None?
    ensures r == request.(routing := u.routing, shouldStoreResult := u.shouldStoreResult, slices := u.slices,
                          timeout := u.timeout, waitForActiveShards := u.waitForActiveShards)
  {
    r := request;
    if u.routing.Some? {
      r := r.(routing := u.routing);
    }
    if u.shouldStoreResult.Some? {
      r := r.(shouldStoreResult := u.shouldStoreResult);
    }
    if u.slices.Some? {
      r := r.(slices := u.slices);
    }
    if u.timeout.Some? {
      r := r.(timeout := u.timeout);
    }
    if u.waitForActiveShards.Some? {
      r := r.(waitForActiveShards := u.waitForActiveShards);
    }
  }

  /** An update-by-query refreshes exactly when the policy is IMMEDIATE, so
      WAIT_UNTIL, which a single-document update keeps, becomes no refresh;
      without a policy the request's default is left alone. */
  lemma UpdateByQueryRefresh(u: UpdateQuery, index: Index)
    requires UpdateByQueryRequestOf(u, index).Success?
    ensures UpdateByQueryRequestOf(u, index).value.refresh == Some(true) <==> u.refreshPolicy == Some(Immediate)
    ensures UpdateByQueryRequestOf(u, index).value.refresh.None? <==> u.refreshPolicy.None?
    ensures u.refreshPolicy == Some(WaitUntil) ==>
      UpdateByQueryRequestOf(u, index).value.refresh == Some(false) &&
      UpdateRequestOf(u, index).refreshPolicy == Some(WriteWaitUntil)
  {
  }

  /** An update-by-query fails exactly when its query is of an unknown variant. */
  lemma UpdateByQueryFailure(u: UpdateQuery, index: Index)
    ensures UpdateByQueryRequestOf(u, index).Failure? <==> u.query.Some? && u.query.value.variant.Other?
  {
  }

  /** The update query of the update-by-query test: a native query with
      index options and a 1000 ms scroll time, and the options below. */
  function ByQueryTestQuery(q: QueryState): UpdateQuery {
    UpdateQueryFor(None).(query := Some(q), abortOnVersionConflict := Some(true), batchSize := Some(10),
                          maxDocs := Some(12), maxRetries := Some(3), pipeline := Some("pipeline"),
                          requestsPerSecond := Some(5.0), shouldStoreResult := Some(false), slices := Some(4),
                          scriptType := Some(Inline), script := Some("script"), lang := Some("painless"))
  }

  /** Every option of that query reaches the request, and the script is the
      inline script "script" in "painless". */
  lemma ByQueryTestOptions(q: QueryState, options: IndicesOptions, index: Index)
    requires q.variant.NativeSearch? && q.indicesOptions == Some(options) && q.scrollTime == Some(Duration(1000))
    ensures UpdateByQueryRequestOf(ByQueryTestQuery(q), index).Success?
    ensures var r := UpdateByQueryRequestOf(ByQueryTestQuery(q), index).value;
      r.indicesOptions == Some(options) && r.scroll == Some(Duration(1000)) &&
      r.query == q.variant.native.query &&
      r.abortOnVersionConflict == Some(true) && r.batchSize == Some(10) && r.maxDocs == Some(12) &&
      r.maxRetries == Some(3) && r.pipeline == Some("pipeline") && r.requestsPerSecond == Some(5.0) &&
      r.shouldStoreResult == Some(false) && r.slices == Some(4) &&
      r.script == Some(Script(InlineScript, Some("painless"), "script", map[]))
  {
  }

  // ----------------------------------------------------------------- bulk

  /** The request an element of a bulk list becomes: index queries and update
      queries are translated, anything else is skipped. */
  function BulkItemOf(ctx: MappingContext, index: Index, e: BulkElement): Result<Option<DocWriteRequest>, Error> {
    match e
    case IndexElement(query) =>
      var request :- IndexRequestOf(ctx, query, index);
      Success(Some(IndexWrite(request)))
    case UpdateElement(query) => Success(Some(UpdateWrite(UpdateRequestOf(query, index))))
    case OtherElement(_) => Success(None)
  }

  function BulkTranslator(ctx: MappingContext, index: Index): BulkElement -> Result<Option<DocWriteRequest>, Error> {
    e => BulkItemOf(ctx, index, e)
  }

  /** The present values of a list of options, in order. */
  function Present<T>(xs: seq<Option<T>>): seq<T> {
    if xs == [] then []
    else Present(xs[..|xs| - 1]) + (if xs[|xs| - 1].Some? then [xs[|xs| - 1].value] else [])
  }

  lemma PresentAppend<T>(xs: seq<Option<T>>, x: Option<T>)
    ensures Present(xs + [x]) == Present(xs) + (if x.Some? then [x.value] else [])
  {
    assert (xs + [x])[..|xs|] == xs;
  }

  /** The elements of a bulk list that become requests, in order. */
  function Translated(elements: seq<BulkElement>): seq<BulkElement> {
    if elements == [] then []
    else Translated(elements[..|elements| - 1]) +
         (if elements[|elements| - 1].OtherElement? then [] else [elements[|elements| - 1]])
  }

  /** The requests of a bulk list, in order. */
  function BulkItemsOf(ctx: MappingContext, elements: seq<BulkElement>, index: Index): Result<seq<DocWriteRequest>, Error> {
    var items :- TranslateAll(elements, BulkTranslator(ctx, index));
    Success(Present(items))
  }

  /** `bulkRequest` */
  function BulkRequestOf(ctx: MappingContext, elements: seq<BulkElement>, options: BulkOptions, index: Index)
    : Result<BulkRequest, Error>
  {
    var requests :- BulkItemsOf(ctx, elements, index);
    Success(BulkRequest(options.timeout,
                        if options.refreshPolicy.Some? then Some(ToWriteRefreshPolicy(options.refreshPolicy.value)) else None,
                        options.waitForActiveShards, options.pipeline, options.routingId, requests))
  }

  /** `bulkRequest`, option by option and element by element. */
  method BuildBulkRequest(ctx: MappingContext, elements: seq<BulkElement>, options: BulkOptions, index: Index)
    returns (r: Result<BulkRequest, Error>)
    ensures r == BulkRequestOf(ctx, elements, options, index)
  {
    var request := BulkRequest(None, None, None, None, None, []);
    if options.timeout.Some? {
      request := request.(timeout := options.timeout);
    }
    if options.refreshPolicy.Some? {
      request := request.(refreshPolicy := Some(ToWriteRefreshPolicy(options.refreshPolicy.value)));
    }
    if options.waitForActiveShards.Some? {
      request := request.(waitForActiveShards := options.waitForActiveShards);
    }
    if options.pipeline.Some? {
      request := request.(pipeline := options.pipeline);
    }
    if options.routingId.Some? {
      request := request.(routing := options.routingId);
    }
    var requests := AddBulkItems(ctx, elements, index);
    if requests.Failure? {
      return Failure(requests.error);
    }
    r := Success(request.(requests := requests.value));
  }

  /** `queries.forEach(...)` of `bulkRequest`: each index or update query is
      translated and added, anything else is skipped. */
  method AddBulkItems(ctx: MappingContext, elements: seq<BulkElement>, index: Index)
    returns (r: Result<seq<DocWriteRequest>, Error>)
    ensures r == BulkItemsOf(ctx, elements, index)
  {
    var f := BulkTranslator(ctx, index);
    var requests := [];
    var i := 0;
    while i < |elements|
      invariant 0 <= i <= |elements|
      invariant TranslateAll(elements[..i], f).Success?
      invariant requests == Present(TranslateAll(elements[..i], f).value)
    {
      assert elements[..i + 1][..i] == elements[..i];
      var item := BulkItemOf(ctx, index, elements[i]);
      assert f(elements[i]) == item;
      if item.Failure? {
        TranslateAllPrefixFailure(elements, f, i + 1);
        return Failure(item.error);
      }
      PresentAppend(TranslateAll(elements[..i], f).value, item.value);
      if item.value.Some? {
        requests := requests + [item.value.value];
      }
      i := i + 1;
    }
    assert elements[..i] == elements;
    r := Success(requests);
  }

  /** The request an element that is translated becomes. */
  function WriteRequestOf(ctx: MappingContext, index: Index, e: BulkElement): Result<DocWriteRequest, Error>
    requires !e.OtherElement?
  {
    match e
    case IndexElement(query) =>
      var request :- IndexRequestOf(ctx, query, index);
      Success(IndexWrite(request))
    case UpdateElement(query) => Success(UpdateWrite(UpdateRequestOf(query, index)))
  }

  /** A bulk request holds one request per index or update element, in the
      order of the list, and skips everything else. */
  lemma {:induction false} BulkPreservesOrder(ctx: MappingContext, elements: seq<BulkElement>, options: BulkOptions, index: Index)
    requires BulkRequestOf(ctx, elements, options, index).Success?
    ensures var requests := BulkRequestOf(ctx, elements, options, index).value.requests;
      |requests| == |Translated(elements)| &&
      forall i :: 0 <= i < |requests| ==>
        !Translated(elements)[i].OtherElement? &&
        WriteRequestOf(ctx, index, Translated(elements)[i]) == Success(requests[i])
  {
    var f := BulkTranslator(ctx, index);
    if elements != [] {
      var init := elements[..|elements| - 1];
      var last := elements[|elements| - 1];
      assert TranslateAll(init, f).Success?;
      BulkPreservesOrder(ctx, init, options, index);
      var before := Present(TranslateAll(init, f).value);
      assert before == BulkRequestOf(ctx, init, options, index).value.requests;
      forall k | 0 <= k < |Translated(init)|
        ensures Translated(elements)[k] == Translated(init)[k]
      {
      }
    }
  }

  /** A bulk request fails exactly when one of its index queries has neither
      an object nor a source. */
  lemma BulkFailure(ctx: MappingContext, elements: seq<BulkElement>, options: BulkOptions, index: Index)
    ensures BulkRequestOf(ctx, elements, options, index).Failure? <==>
      exists i :: 0 <= i < |elements| && elements[i].IndexElement? &&
        elements[i].indexQuery.obj.None? && elements[i].indexQuery.source.None?
  {
    var f := BulkTranslator(ctx, index);
    TranslateAllCharacterized(elements, f);
    forall i | 0 <= i < |elements|
      ensures f(elements[i]).Failure? <==>
        elements[i].IndexElement? && elements[i].indexQuery.obj.None? && elements[i].indexQuery.source.None?
    {
      if elements[i].IndexElement? {
        IndexRequestRules(ctx, elements[i].indexQuery, index);
      }
    }
  }
}
