/** The search region of the request factory: the search request a query
    becomes (paging, sorting, highlighting, the native-only parts, total-hits
    tracking, rescorers), and the delete-by-query and multi-get requests built
    from the same query. */
module SearchRequests {
  import opened Wrappers
  import opened Elastic
  import opened Metadata
  import opened Query
  import opened Requests
  import opened FactoryHelpers

  /** `INDEX_MAX_RESULT_WINDOW`: the size asked for when the query is unpaged. */
  const IndexMaxResultWindow: int := 10000

  /** Java's `(int)` cast of a `long`: the value modulo 2^32, read as a signed 32-bit integer. */
  function ToInt32(x: int): (r: int)
    ensures -0x8000_0000 <= r < 0x8000_0000
    ensures (x - r) % 0x1_0000_0000 == 0
  {
    var m := x % 0x1_0000_0000;
    if m >= 0x8000_0000 then m - 0x1_0000_0000 else m
  }

  /** An offset that fits in an `int` passes the cast unchanged. */
  lemma CastKeepsSmallOffset(x: int)
    requires -0x8000_0000 <= x < 0x8000_0000
    ensures ToInt32(x) == x
  {
  }

  // ---------------------------------------------------------------- sorting

  function SortOrderOf(d: Direction): (r: SortOrder)
    ensures r == Desc <==> d == Descending
  {
    if d == Descending then Desc else Asc
  }

  /** The `missing` value of a field sort for a null-handling hint. */
  function MissingOf(n: NullHandling): Option<string> {
    match n
    case NullsFirst => Some("_first")
    case NullsLast => Some("_last")
    case NativeNullHandling => None
  }

  /** The field a sort order names: the wire field name of the entity's
      property with that property name, else the name as given. */
  function SortFieldName(order: Order, entity: Option<Entity>): string {
    if entity.Some? && PropertyNamed(entity.value.properties, order.property).Some? then
      PropertyNamed(entity.value.properties, order.property).value.fieldName
    else
      order.property
  }

  /** `getSortBuilder` as written: the geo-distance branch never applies the
      order's direction, so the sort keeps the library's ascending default. */
  function SortBuilderAsWritten(order: Order, entity: Option<Entity>): SortBuilder {
    if order.property == "_score" then ScoreSort(SortOrderOf(order.direction))
    else if order.geo.Some? then GeoDistanceSort(SortFieldName(order, entity), order.geo.value, None)
    else FieldSort(SortFieldName(order, entity), SortOrderOf(order.direction), MissingOf(order.nullHandling))
  }

  /** `getSortBuilder` with the direction applied to geo-distance sorts as well. */
  function SortBuilderOf(order: Order, entity: Option<Entity>): SortBuilder {
    if order.property == "_score" then ScoreSort(SortOrderOf(order.direction))
    else if order.geo.Some? then
      GeoDistanceSort(SortFieldName(order, entity), order.geo.value, Some(SortOrderOf(order.direction)))
    else FieldSort(SortFieldName(order, entity), SortOrderOf(order.direction), MissingOf(order.nullHandling))
  }

  /** The sort-builder rules: `_score` is a score sort in the order's
      direction; any other property is resolved to its wire field name when
      the entity has a property of that name and is used unchanged otherwise;
      a plain order becomes a field sort whose `missing` value encodes the
      null handling, and a geo-distance order a geo-distance sort. */
  lemma SortBuilderRules(order: Order, entity: Option<Entity>)
    ensures order.property == "_score" ==> SortBuilderOf(order, entity) == ScoreSort(SortOrderOf(order.direction))
    ensures order.property != "_score" && order.geo.None? ==>
      SortBuilderOf(order, entity).FieldSort? &&
      SortBuilderOf(order, entity).order == SortOrderOf(order.direction) &&
      (SortBuilderOf(order, entity).missing == Some("_first") <==> order.nullHandling == NullsFirst) &&
      (SortBuilderOf(order, entity).missing == Some("_last") <==> order.nullHandling == NullsLast) &&
      (SortBuilderOf(order, entity).missing.None? <==> order.nullHandling == NativeNullHandling)
    ensures order.property != "_score" && order.geo.Some? ==>
      SortBuilderOf(order, entity).GeoDistanceSort? && SortBuilderOf(order, entity).geo == order.geo.value
    ensures order.property != "_score" && SortBuilderOf(order, entity).FieldSort? ==>
      SortBuilderOf(order, entity).fieldName == SortFieldName(order, entity)
    ensures order.property != "_score" && SortBuilderOf(order, entity).GeoDistanceSort? ==>
      SortBuilderOf(order, entity).fieldName == SortFieldName(order, entity)
    ensures (entity.None? || forall p :: p in entity.value.properties ==> p.name != order.property) ==>
      SortFieldName(order, entity) == order.property
  {
  }

  /** In an entity with unique names, a sort on a property uses that
      property's wire field name, and the field name leads back to the same
      property: the lookup the hit mapper does to rename highlight fields
      undoes the one done here. */
  lemma SortFieldRoundTrip(order: Order, e: Entity, p: Property)
    requires WellFormed(e)
    requires p in e.properties && order.property == p.name
    ensures SortFieldName(order, Some(e)) == p.fieldName
    ensures PropertyWithFieldName(e.properties, SortFieldName(order, Some(e))) == Some(p)
  {
    NameLookupUnique(e.properties, p);
    FieldNameLookupUnique(e.properties, p);
  }

  /** A descending geo-distance order: as written the request sorts it
      ascending (no direction set), the corrected builder sorts it descending. */
  lemma GeoSortDirectionLost(order: Order, entity: Option<Entity>)
    requires order.property != "_score" && order.geo.Some? && order.direction == Descending
    ensures SortBuilderAsWritten(order, entity).sortOrder.None?
    ensures SortBuilderOf(order, entity).sortOrder == Some(Desc)
  {
  }

  /** The correction changes nothing but the direction of a geo-distance
      sort: every other builder is the one `getSortBuilder` makes as written,
      and an ascending geo-distance sort gets the ascending order the library
      would default to. */
  lemma CorrectionOnlyAddsGeoDirection(order: Order, entity: Option<Entity>)
    ensures !SortBuilderAsWritten(order, entity).GeoDistanceSort? ==>
      SortBuilderOf(order, entity) == SortBuilderAsWritten(order, entity)
    ensures SortBuilderAsWritten(order, entity).GeoDistanceSort? ==>
      SortBuilderOf(order, entity) ==
        SortBuilderAsWritten(order, entity).(sortOrder := Some(SortOrderOf(order.direction)))
    ensures SortBuilderAsWritten(order, entity).GeoDistanceSort? && order.direction != Descending ==>
      SortBuilderOf(order, entity).sortOrder == Some(Asc)
  {
  }

  /** With the correction every non-score sort carries the order's direction. */
  lemma SortDirectionAlwaysApplied(order: Order, entity: Option<Entity>)
    ensures SortBuilderOf(order, entity).ScoreSort? ==> SortBuilderOf(order, entity).order == SortOrderOf(order.direction)
    ensures SortBuilderOf(order, entity).FieldSort? ==> SortBuilderOf(order, entity).order == SortOrderOf(order.direction)
    ensures SortBuilderOf(order, entity).GeoDistanceSort? ==>
      SortBuilderOf(order, entity).sortOrder == Some(SortOrderOf(order.direction))
    ensures !SortBuilderOf(order, entity).NativeSort?
  {
  }

  /** The sort builders of a list of orders, one per order, in order. */
  function SortBuildersOf(orders: Sort, entity: Option<Entity>): (r: seq<SortBuilder>)
    ensures |r| == |orders|
    ensures forall i :: 0 <= i < |orders| ==> r[i] == SortBuilderOf(orders[i], entity)
  {
    if orders == [] then [] else [SortBuilderOf(orders[0], entity)] + SortBuildersOf(orders[1..], entity)
  }

  /** The native sorts of a query: only a native query has them. */
  function NativeSortsOf(q: QueryState): seq<SortBuilder> {
    if q.variant.NativeSearch? && q.variant.native.elasticsearchSorts.Some? then
      q.variant.native.elasticsearchSorts.value
    else
      []
  }

  /** All sorts of a query: its own orders translated, then its native sorts. */
  function SortsOf(q: QueryState, entity: Option<Entity>): seq<SortBuilder> {
    (if q.sort.Some? then SortBuildersOf(q.sort.value, entity) else []) + NativeSortsOf(q)
  }

  /** The query's orders come first, one builder per order in order, and the
      native sorts follow unchanged. */
  lemma SortsOrdered(q: QueryState, entity: Option<Entity>)
    ensures var n := if q.sort.Some? then |q.sort.value| else 0;
      |SortsOf(q, entity)| == n + |NativeSortsOf(q)| &&
      (forall i :: 0 <= i < n ==> SortsOf(q, entity)[i] == SortBuilderOf(q.sort.value[i], entity)) &&
      SortsOf(q, entity)[n..] == NativeSortsOf(q)
  {
  }

  /** The loop of `prepareSort`: one builder per order appended, in order. */
  method AddSortBuilders(sorts: seq<SortBuilder>, orders: Sort, entity: Option<Entity>) returns (r: seq<SortBuilder>)
    ensures r == sorts + SortBuildersOf(orders, entity)
  {
    r := sorts;
    var i := 0;
    while i < |orders|
      invariant 0 <= i <= |orders|
      invariant r == sorts + SortBuildersOf(orders[..i], entity)
    {
      SortBuildersStep(sorts, orders, i, entity);
      r := r + [SortBuilderOf(orders[i], entity)];
      i := i + 1;
    }
    assert orders[..i] == orders;
  }

  /** One more order of the loop appends its builder. */
  lemma SortBuildersStep(sorts: seq<SortBuilder>, orders: Sort, i: nat, entity: Option<Entity>)
    requires i < |orders|
    ensures sorts + SortBuildersOf(orders[..i + 1], entity) ==
      (sorts + SortBuildersOf(orders[..i], entity)) + [SortBuilderOf(orders[i], entity)]
  {
    assert orders[..i + 1] == orders[..i] + [orders[i]];
    SortBuildersAppend(orders[..i], orders[i], entity);
  }

  /** `prepareSort`: adds the translated orders, then the native sorts. */
  method PrepareSort(q: QueryState, source: SearchSource, entity: Option<Entity>) returns (r: SearchSource)
    ensures r == source.(sorts := source.sorts + SortsOf(q, entity))
  {
    var sorts := source.sorts;
    if q.sort.Some? {
      sorts := AddSortBuilders(sorts, q.sort.value, entity);
    }
    if q.variant.NativeSearch? && q.variant.native.elasticsearchSorts.Some? {
      sorts := AppendAll(sorts, q.variant.native.elasticsearchSorts.value);
    }
    r := source.(sorts := sorts);
  }

  lemma SortBuildersAppend(orders: Sort, o: Order, entity: Option<Entity>)
    ensures SortBuildersOf(orders + [o], entity) == SortBuildersOf(orders, entity) + [SortBuilderOf(o, entity)]
  {
  }

  // ------------------------------------------------------------ highlighting

  /** `highlightBuilder`: the highlight query's builder; failing that, for a
      native query with a builder or highlight fields, its builder with the
      fields added; otherwise none. */
  function HighlighterOf(q: QueryState): (r: Option<Highlighter>)
    ensures q.highlightQuery.Some? ==> r == Some(FromHighlightQuery(q.highlightQuery.value))
    ensures r.Some? && r.value.NativeHighlighter? ==>
      q.highlightQuery.None? && q.variant.NativeSearch? &&
      r.value.base == q.variant.native.highlightBuilder &&
      r.value.fields == q.variant.native.highlightFields.GetOr([])
    ensures r.None? <==> (q.highlightQuery.None? &&
      (!q.variant.NativeSearch? || (q.variant.native.highlightFields.None? && q.variant.native.highlightBuilder.None?)))
  {
    if q.highlightQuery.Some? then Some(FromHighlightQuery(q.highlightQuery.value))
    else if q.variant.NativeSearch? &&
            (q.variant.native.highlightFields.Some? || q.variant.native.highlightBuilder.Some?) then
      Some(NativeHighlighter(q.variant.native.highlightBuilder, q.variant.native.highlightFields.GetOr([])))
    else None
  }

  // ------------------------------------------------------- native-only parts

  /** What `prepareNativeSearch` adds to the source builder. */
  function WithNativeParts(source: SearchSource, n: NativeParts): SearchSource {
    source.(scriptFields := source.scriptFields + n.scriptFields,
            collapse := if n.collapseBuilder.Some? then n.collapseBuilder else source.collapse,
            indexBoosts := source.indexBoosts + n.indicesBoost.GetOr([]),
            aggregations := source.aggregations + n.aggregations.GetOr([]),
            pipelineAggregations := source.pipelineAggregations + n.pipelineAggregations.GetOr([]))
  }

  /** `prepareNativeSearch`: script fields, collapse, index boosts and both
      kinds of aggregation, each list added element by element. */
  method PrepareNativeSearch(n: NativeParts, source: SearchSource) returns (r: SearchSource)
    ensures r == WithNativeParts(source, n)
  {
    r := source;
    var scriptFields := AppendAll(r.scriptFields, n.scriptFields);
    r := r.(scriptFields := scriptFields);
    if n.collapseBuilder.Some? {
      r := r.(collapse := n.collapseBuilder);
    }
    if n.indicesBoost.Some? {
      var boosts := AppendAll(r.indexBoosts, n.indicesBoost.value);
      r := r.(indexBoosts := boosts);
    }
    if n.aggregations.Some? {
      var aggregations := AppendAll(r.aggregations, n.aggregations.value);
      r := r.(aggregations := aggregations);
    }
    if n.pipelineAggregations.Some? {
      var pipeline := AppendAll(r.pipelineAggregations, n.pipelineAggregations.value);
      r := r.(pipelineAggregations := pipeline);
    }
  }

  // ------------------------------------------------------- total hits, type

  /** Total-hits tracking: the flag when it is set, else the limit when that
      is set, else the library default. */
  function TrackTotalHitsOf(q: QueryState): Option<TrackTotalHits> {
    if q.trackTotalHits.Some? then Some(TrackHits(q.trackTotalHits.value))
    else if q.trackTotalHitsUpTo.Some? then Some(TrackHitsUpTo(q.trackTotalHitsUpTo.value))
    else None
  }

  /** The flag beats the limit; the limit is used only when the flag is
      absent; with neither nothing is set. */
  lemma TrackTotalHitsPrecedence(q: QueryState)
    ensures q.trackTotalHits.Some? ==> TrackTotalHitsOf(q) == Some(TrackHits(q.trackTotalHits.value))
    ensures TrackTotalHitsOf(q).Some? && TrackTotalHitsOf(q).value.TrackHitsUpTo? <==>
      q.trackTotalHits.None? && q.trackTotalHitsUpTo.Some?
    ensures TrackTotalHitsOf(q).Some? && TrackTotalHitsOf(q).value.TrackHitsUpTo? ==>
      TrackTotalHitsOf(q).value.limit == q.trackTotalHitsUpTo.value
    ensures TrackTotalHitsOf(q).None? <==> q.trackTotalHits.None? && q.trackTotalHitsUpTo.None?
  {
  }

  /** `SearchType.fromString(searchType.name().toLowerCase())` */
  function SearchTypeOf(t: SearchType): (r: RequestSearchType)
    ensures r == DfsQueryThenFetchSearch <==> t == DfsQueryThenFetch
  {
    match t
    case QueryThenFetch => QueryThenFetchSearch
    case DfsQueryThenFetch => DfsQueryThenFetchSearch
  }

  // ------------------------------------------------------------- rescorers

  /** The constant names of the query's `ScoreMode`. */
  function ScoreModeName(m: RescoreScoreMode): string {
    match m
    case ScoreModeDefault => "Default"
    case ScoreModeAvg => "Avg"
    case ScoreModeMax => "Max"
    case ScoreModeMin => "Min"
    case ScoreModeTotal => "Total"
    case ScoreModeMultiply => "Multiply"
  }

  /** The constant names of the library's `QueryRescoreMode`. */
  function QueryRescoreModeName(m: QueryRescoreMode): string {
    match m
    case RescoreAvg => "Avg"
    case RescoreMax => "Max"
    case RescoreMin => "Min"
    case RescoreTotal => "Total"
    case RescoreMultiply => "Multiply"
  }

  /** `QueryRescoreMode.valueOf(scoreMode.name())`, not set for the default
      mode: any other mode becomes the library mode of the same name. */
  function RescoreModeOf(m: RescoreScoreMode): (r: Option<QueryRescoreMode>)
    ensures r.None? <==> m == ScoreModeDefault
    ensures m != ScoreModeDefault ==>
      forall x :: QueryRescoreModeName(x) == ScoreModeName(m) <==> r == Some(x)
  {
    match m
    case ScoreModeDefault => None
    case ScoreModeAvg => Some(RescoreAvg)
    case ScoreModeMax => Some(RescoreMax)
    case ScoreModeMin => Some(RescoreMin)
    case ScoreModeTotal => Some(RescoreTotal)
    case ScoreModeMultiply => Some(RescoreMultiply)
  }

  /** `getQueryRescorerBuilder`: the rescore query, and every option that is set. */
  function RescorerOf(r: RescorerQuery): (b: Result<Rescorer, Error>)
    ensures b.Failure? <==> r.query.variant.Other?
    ensures b.Success? ==> (b.value.query == QueryOf(r.query).value && b.value.windowSize == r.windowSize &&
      b.value.queryWeight == r.queryWeight && b.value.rescoreQueryWeight == r.rescoreQueryWeight &&
      b.value.scoreMode == RescoreModeOf(r.scoreMode))
  {
    var query :- QueryOf(r.query);
    Success(Rescorer(query, RescoreModeOf(r.scoreMode), r.queryWeight, r.rescoreQueryWeight, r.windowSize))
  }

  /** The rescorers of a list, built one after the other. */
  function RescorersOf(rs: seq<RescorerQuery>): Result<seq<Rescorer>, Error> {
    TranslateAll(rs, RescorerOf)
  }

  /** Building fails exactly when some rescorer's query is of an unknown
      variant, with the error of the first such; otherwise there is one
      rescorer per rescorer query, in order. */
  lemma RescorersCharacterized(rs: seq<RescorerQuery>)
    ensures RescorersOf(rs).Failure? <==> exists i :: 0 <= i < |rs| && rs[i].query.variant.Other?
    ensures RescorersOf(rs).Failure? ==>
      exists i :: (0 <= i < |rs| && rs[i].query.variant.Other? &&
        (forall j :: 0 <= j < i ==> !rs[j].query.variant.Other?) &&
        RescorersOf(rs).error == UnhandledQueryImplementation(rs[i].query.variant.className))
    ensures RescorersOf(rs).Success? ==>
      |RescorersOf(rs).value| == |rs| &&
      forall i :: 0 <= i < |rs| ==> RescorersOf(rs).value[i] == RescorerOf(rs[i]).value
  {
    TranslateAllCharacterized(rs, RescorerOf);
  }

  /** The source builder with the rescorers of `rs` added after its own. */
  function WithRescorers(source: SearchSource, rs: seq<RescorerQuery>): Result<SearchSource, Error> {
    var rescorers :- RescorersOf(rs);
    Success(source.(rescorers := source.rescorers + rescorers))
  }

  /** `getRescorerQueries().forEach(... addRescorer ...)` */
  method AddRescorers(source: SearchSource, rs: seq<RescorerQuery>) returns (r: Result<SearchSource, Error>)
    ensures r == WithRescorers(source, rs)
  {
    var rescorers := source.rescorers;
    var i := 0;
    while i < |rs|
      invariant 0 <= i <= |rs|
      invariant RescorersOf(rs[..i]).Success?
      invariant rescorers == source.rescorers + RescorersOf(rs[..i]).value
    {
      assert rs[..i + 1][..i] == rs[..i];
      var b := RescorerOf(rs[i]);
      if b.Failure? {
        TranslateAllPrefixFailure(rs, RescorerOf, i + 1);
        return Failure(b.error);
      }
      rescorers := rescorers + [b.value];
      i := i + 1;
    }
    assert rs[..i] == rs;
    r := Success(source.(rescorers := rescorers));
  }

  // ------------------------------------------------------------ the request

  /** The routing of a search: only a non-empty route is used. */
  function SearchRoutingOf(route: Option<string>): (r: Option<string>)
    ensures r.Some? <==> route.Some? && route.value != ""
    ensures r.Some? ==> r == route
  {
    if route.Some? && |route.value| > 0 then route else None
  }

  /** The source builder after its first options: version on, the query's
      score tracking, sequence numbers when the entity has them, and paging
      (the page's offset and size, or the whole result window). */
  function PagingOf(q: QueryState, ctx: MappingContext, clazz: Option<string>): SearchSource {
    EmptySource.(
      version := Some(true),
      trackScores := q.trackScores,
      seqNoAndPrimaryTerm := if HasSeqNoPrimaryTermProperty(ctx, clazz) then Some(true) else None,
      from := if q.pageable.IsPaged() then ToInt32(q.pageable.Offset()) else 0,
      size := if q.pageable.IsPaged() then q.pageable.size else IndexMaxResultWindow)
  }

  /** A source builder after the query's source filter, fields, maximum
      number of results and minimum score. */
  function FetchOptionsOf(q: QueryState, source: SearchSource): SearchSource {
    source.(
      fetchSource := if q.sourceFilter.Some? then FetchSourceContextOf(q) else source.fetchSource,
      fetchFields := source.fetchFields + q.fields,
      size := if q.IsLimiting() then q.maxResults.value else source.size,
      minScore := if q.minScore > 0.0 then Some(q.minScore) else source.minScore)
  }

  /** The source builder after its paging and fetch options. */
  function PagedSourceOf(q: QueryState, ctx: MappingContext, clazz: Option<string>): SearchSource {
    FetchOptionsOf(q, PagingOf(q, ctx, clazz))
  }

  /** A source builder after the query's sorts, its highlighter and, for a
      native query, the native-only parts. */
  function SortedSourceOf(q: QueryState, source: SearchSource, entity: Option<Entity>): SearchSource {
    var sorted := source.(sorts := source.sorts + SortsOf(q, entity),
                          highlighter := if HighlighterOf(q).Some? then HighlighterOf(q) else source.highlighter);
    if q.variant.NativeSearch? then WithNativeParts(sorted, q.variant.native) else sorted
  }

  /** A source builder after total-hits tracking, the timeout, explain and search-after. */
  function TrackedSourceOf(q: QueryState, source: SearchSource): SearchSource {
    source.(trackTotalHits := if TrackTotalHitsOf(q).Some? then TrackTotalHitsOf(q) else source.trackTotalHits,
            timeout := if q.timeout.Some? then q.timeout else source.timeout,
            explain := Some(q.explain),
            searchAfter := if q.searchAfter.Some? then q.searchAfter else source.searchAfter)
  }

  /** The source builder after sorting, highlighting, the native-only parts,
      total-hits tracking, the timeout, explain and search-after. */
  function DecoratedSourceOf(q: QueryState, source: SearchSource, entity: Option<Entity>): SearchSource {
    TrackedSourceOf(q, SortedSourceOf(q, source, entity))
  }

  /** The source builder `prepareSearchRequest` fills in. */
  function SearchSourceOf(q: QueryState, ctx: MappingContext, clazz: Option<string>): Result<SearchSource, Error> {
    WithRescorers(DecoratedSourceOf(q, PagedSourceOf(q, ctx, clazz), EntityFor(ctx, clazz)), q.rescorerQueries)
  }

  /** `prepareSearchRequest` */
  function PreparedSearch(q: QueryState, ctx: MappingContext, clazz: Option<string>, index: Index): Result<SearchRequest, Error> {
    var source :- SearchSourceOf(q, ctx, clazz);
    Success(SearchRequest(index.indexNames, q.indicesOptions, q.preference, SearchTypeOf(q.searchType),
                          SearchRoutingOf(q.route), q.requestCache, source))
  }

  /** The first options of `prepareSearchRequest`: version, score tracking,
      sequence numbers and paging. */
  method PreparePaging(q: QueryState, ctx: MappingContext, clazz: Option<string>) returns (source: SearchSource)
    ensures source == PagingOf(q, ctx, clazz)
  {
    source := EmptySource.(version := Some(true), trackScores := q.trackScores);
    if HasSeqNoPrimaryTermProperty(ctx, clazz) {
      source := source.(seqNoAndPrimaryTerm := Some(true));
    }
    if q.pageable.IsPaged() {
      source := source.(from := ToInt32(q.pageable.Offset()), size := q.pageable.size);
    } else {
      source := source.(from := 0, size := IndexMaxResultWindow);
    }
  }

  /** The fetch options of `prepareSearchRequest`, one by one: a limiting
      query overwrites the size the paging set. */
  method ApplyFetchOptions(q: QueryState, source: SearchSource) returns (r: SearchSource)
    ensures r == FetchOptionsOf(q, source)
  {
    r := source;
    if q.sourceFilter.Some? {
      r := r.(fetchSource := FetchSourceContextOf(q));
      r := r.(fetchSource := Some(WithFetchPatterns(r.fetchSource,
                                    q.sourceFilter.value.includes, q.sourceFilter.value.excludes)));
    }
    if q.fields != [] {
      var fields := AppendAll(r.fetchFields, q.fields);
      r := r.(fetchFields := fields);
    }
    if q.IsLimiting() {
      r := r.(size := q.maxResults.value);
    }
    if q.minScore > 0.0 {
      r := r.(minScore := Some(q.minScore));
    }
  }

  /** The sorts, the highlighter and the native-only parts of `prepareSearchRequest`. */
  method ApplySortsAndHighlights(q: QueryState, source: SearchSource, entity: Option<Entity>) returns (r: SearchSource)
    ensures r == SortedSourceOf(q, source, entity)
  {
    r := PrepareSort(q, source, entity);
    var highlighter := HighlighterOf(q);
    if highlighter.Some? {
      r := r.(highlighter := highlighter);
    }
    if q.variant.NativeSearch? {
      r := PrepareNativeSearch(q.variant.native, r);
    }
  }

  /** Total-hits tracking, the timeout, explain and search-after of `prepareSearchRequest`. */
  method ApplyTracking(q: QueryState, source: SearchSource) returns (r: SearchSource)
    ensures r == TrackedSourceOf(q, source)
  {
    r := source;
    if q.trackTotalHits.Some? {
      r := r.(trackTotalHits := Some(TrackHits(q.trackTotalHits.value)));
    } else if q.trackTotalHitsUpTo.Some? {
      r := r.(trackTotalHits := Some(TrackHitsUpTo(q.trackTotalHitsUpTo.value)));
    }
    if q.timeout.Some? {
      r := r.(timeout := q.timeout);
    }
    r := r.(explain := Some(q.explain));
    if q.searchAfter.Some? {
      r := r.(searchAfter := q.searchAfter);
    }
  }

  /** `prepareSearchRequest`, option by option. */
  method PrepareSearchRequest(q: QueryState, ctx: MappingContext, clazz: Option<string>, index: Index)
    returns (r: Result<SearchRequest, Error>)
    ensures r == PreparedSearch(q, ctx, clazz, index)
  {
    var request := PrepareRequestOptions(q, index);
    var source := PreparePaging(q, ctx, clazz);
    source := ApplyFetchOptions(q, source);
    source := ApplySortsAndHighlights(q, source, EntityFor(ctx, clazz));
    source := ApplyTracking(q, source);
    var withRescorers := AddRescorers(source, q.rescorerQueries);
    if withRescorers.Failure? {
      return Failure(withRescorers.error);
    }
    r := Success(request.(source := withRescorers.value));
  }

  /** The options `prepareSearchRequest` sets on the request itself rather
      than on its source: the indices options and preference when given,
      the search type, a non-empty route, and the request cache when given. */
  method PrepareRequestOptions(q: QueryState, index: Index) returns (request: SearchRequest)
    ensures request == SearchRequest(index.indexNames, q.indicesOptions, q.preference, SearchTypeOf(q.searchType),
                                     SearchRoutingOf(q.route), q.requestCache, EmptySource)
  {
    request := SearchRequest(index.indexNames, None, None, QueryThenFetchSearch, None, None, EmptySource);
    if q.indicesOptions.Some? {
      request := request.(indicesOptions := q.indicesOptions);
    }
    if q.preference.Some? {
      request := request.(preference := q.preference);
    }
    request := request.(searchType := SearchTypeOf(q.searchType));
    if q.route.Some? && |q.route.value| > 0 {
      request := request.(routing := q.route);
    }
    if q.requestCache.Some? {
      request := request.(requestCache := q.requestCache);
    }
  }

  /** Paging: a paged query starts at its offset (cast to `int`) and an
      unpaged one at 0; the size is the page size, or the result window when
      unpaged, and a limiting query overrides it with its maximum either way. */
  lemma PagingRules(q: QueryState, ctx: MappingContext, clazz: Option<string>, index: Index)
    requires PreparedSearch(q, ctx, clazz, index).Success?
    ensures var s := PreparedSearch(q, ctx, clazz, index).value.source;
      (q.pageable.IsPaged() ==> s.from == ToInt32(q.pageable.page * q.pageable.size)) &&
      (!q.pageable.IsPaged() ==> s.from == 0) &&
      (q.IsLimiting() ==> s.size == q.maxResults.value) &&
      (!q.IsLimiting() && q.pageable.IsPaged() ==> s.size == q.pageable.size) &&
      (!q.IsLimiting() && !q.pageable.IsPaged() ==> s.size == IndexMaxResultWindow)
  {
    PreparedSource(q, ctx, clazz, index);
    DecoratedSourceKeeps(q, PagedSourceOf(q, ctx, clazz), EntityFor(ctx, clazz));
  }

  /** The source of a prepared search: the decorated source with the rescorers added. */
  lemma PreparedSource(q: QueryState, ctx: MappingContext, clazz: Option<string>, index: Index)
    requires PreparedSearch(q, ctx, clazz, index).Success?
    ensures RescorersOf(q.rescorerQueries).Success?
    ensures PreparedSearch(q, ctx, clazz, index).value.source ==
      DecoratedSourceOf(q, PagedSourceOf(q, ctx, clazz), EntityFor(ctx, clazz)).(rescorers := RescorersOf(q.rescorerQueries).value)
  {
    DecoratedSourceKeeps(q, PagedSourceOf(q, ctx, clazz), EntityFor(ctx, clazz));
  }

  /** A query that is neither paged nor limiting asks for the first 10 000
      hits, never more. */
  lemma UnpagedSearchIsCapped(q: QueryState, ctx: MappingContext, clazz: Option<string>, index: Index)
    requires !q.pageable.IsPaged() && !q.IsLimiting()
    requires PreparedSearch(q, ctx, clazz, index).Success?
    ensures PreparedSearch(q, ctx, clazz, index).value.source.from == 0
    ensures PreparedSearch(q, ctx, clazz, index).value.source.size == 10000
  {
    PagingRules(q, ctx, clazz, index);
  }

  /** The parts only a native query carries stay empty for every other
      variant, and a highlighter then comes only from a highlight query. */
  lemma NativeOnlyParts(q: QueryState, ctx: MappingContext, clazz: Option<string>, index: Index)
    requires !q.variant.NativeSearch?
    requires PreparedSearch(q, ctx, clazz, index).Success?
    ensures var s := PreparedSearch(q, ctx, clazz, index).value.source;
      s.scriptFields == [] && s.collapse.None? && s.indexBoosts == [] &&
      s.aggregations == [] && s.pipelineAggregations == [] &&
      s.sorts == (if q.sort.Some? then SortBuildersOf(q.sort.value, EntityFor(ctx, clazz)) else []) &&
      (s.highlighter.Some? <==> q.highlightQuery.Some?)
  {
    PreparedSource(q, ctx, clazz, index);
  }

  /** `searchRequest`: the prepared request with the query's scoring query and
      its filter as post filter. */
  function SearchRequestOf(q: QueryState, ctx: MappingContext, clazz: Option<string>, index: Index): Result<SearchRequest, Error> {
    var request :- PreparedSearch(q, ctx, clazz, index);
    var query :- QueryOf(q);
    var filter :- FilterOf(q);
    var source := request.source.(query := query);
    Success(request.(source := if filter.Some? then source.(postFilter := filter) else source))
  }

  /** A search request is built exactly when the query and all its rescorer
      queries are of known variants; it then targets all the index names,
      carries the query's scoring query and filter, routes only by a
      non-empty route, and keeps the query's other request-level options. */
  lemma SearchRequestShape(q: QueryState, ctx: MappingContext, clazz: Option<string>, index: Index)
    ensures SearchRequestOf(q, ctx, clazz, index).Success? <==>
      !q.variant.Other? && forall i :: 0 <= i < |q.rescorerQueries| ==> !q.rescorerQueries[i].query.variant.Other?
    ensures SearchRequestOf(q, ctx, clazz, index).Success? ==>
      var r := SearchRequestOf(q, ctx, clazz, index).value;
      r.indices == index.indexNames &&
      r.source.query == QueryOf(q).value && r.source.postFilter == FilterOf(q).value &&
      (r.routing.Some? <==> q.route.Some? && q.route.value != "") &&
      r.preference == q.preference && r.requestCache == q.requestCache &&
      r.indicesOptions == q.indicesOptions &&
      |r.source.rescorers| == |q.rescorerQueries|
  {
    SearchRequestSucceeds(q, ctx, clazz, index);
    if SearchRequestOf(q, ctx, clazz, index).Success? {
      SearchRequestContents(q, ctx, clazz, index);
    }
  }

  lemma SearchRequestSucceeds(q: QueryState, ctx: MappingContext, clazz: Option<string>, index: Index)
    ensures SearchRequestOf(q, ctx, clazz, index).Success? <==>
      !q.variant.Other? && forall i :: 0 <= i < |q.rescorerQueries| ==> !q.rescorerQueries[i].query.variant.Other?
  {
    RescorersCharacterized(q.rescorerQueries);
    QueryAndFilterDispatch(q);
    assert SearchSourceOf(q, ctx, clazz).Success? <==> RescorersOf(q.rescorerQueries).Success?;
  }

  lemma SearchRequestContents(q: QueryState, ctx: MappingContext, clazz: Option<string>, index: Index)
    requires SearchRequestOf(q, ctx, clazz, index).Success?
    ensures var r := SearchRequestOf(q, ctx, clazz, index).value;
      r.indices == index.indexNames &&
      r.source.query == QueryOf(q).value && r.source.postFilter == FilterOf(q).value &&
      (r.routing.Some? <==> q.route.Some? && q.route.value != "") &&
      r.preference == q.preference && r.requestCache == q.requestCache &&
      r.indicesOptions == q.indicesOptions &&
      |r.source.rescorers| == |q.rescorerQueries|
  {
    var source := SearchSourceOf(q, ctx, clazz).value;
    SearchSourceParts(q, ctx, clazz);
    var query := QueryOf(q).value;
    var filter := FilterOf(q).value;
    var withQuery := source.(query := query);
    assert SearchRequestOf(q, ctx, clazz, index).value ==
      SearchRequest(index.indexNames, q.indicesOptions, q.preference, SearchTypeOf(q.searchType),
                    SearchRoutingOf(q.route), q.requestCache,
                    if filter.Some? then withQuery.(postFilter := filter) else withQuery);
  }

  /** The source of a search carries no filter yet, and one rescorer per rescorer query. */
  lemma SearchSourceParts(q: QueryState, ctx: MappingContext, clazz: Option<string>)
    requires SearchSourceOf(q, ctx, clazz).Success?
    ensures SearchSourceOf(q, ctx, clazz).value.postFilter.None?
    ensures |SearchSourceOf(q, ctx, clazz).value.rescorers| == |q.rescorerQueries|
  {
    var base := DecoratedSourceOf(q, PagedSourceOf(q, ctx, clazz), EntityFor(ctx, clazz));
    DecoratedSourceKeeps(q, PagedSourceOf(q, ctx, clazz), EntityFor(ctx, clazz));
    assert base.rescorers == [] && base.postFilter.None?;
    RescorersCharacterized(q.rescorerQueries);
  }

  /** Decorating a source leaves its paging, query, filter and rescorers alone. */
  lemma DecoratedSourceKeeps(q: QueryState, source: SearchSource, entity: Option<Entity>)
    ensures DecoratedSourceOf(q, source, entity).query == source.query
    ensures DecoratedSourceOf(q, source, entity).postFilter == source.postFilter
    ensures DecoratedSourceOf(q, source, entity).rescorers == source.rescorers
    ensures DecoratedSourceOf(q, source, entity).from == source.from
    ensures DecoratedSourceOf(q, source, entity).size == source.size
  {
  }

  /** `deleteByQueryRequest`: the search request's query, version conflicts
      not aborting, refresh on; the batch size is the maximum when limiting,
      and a route is used whenever one is set, even an empty one. */
  function DeleteByQueryRequestOf(q: QueryState, ctx: MappingContext, clazz: Option<string>, index: Index): Result<DeleteByQueryRequest, Error> {
    var search :- SearchRequestOf(q, ctx, clazz, index);
    Success(DeleteByQueryRequest(index.indexNames, search.source.query, false, true,
                                 if q.IsLimiting() then q.maxResults else None,
                                 if q.HasScrollTime() then q.scrollTime else None, q.route))
  }

  /** The delete-by-query request deletes what the search request would
      find, never aborts on a version conflict, always refreshes, batches by
      the maximum number of results exactly when the query is limiting, and
      scrolls for the query's scroll time when it has one. */
  lemma DeleteByQueryShape(q: QueryState, ctx: MappingContext, clazz: Option<string>, index: Index)
    ensures DeleteByQueryRequestOf(q, ctx, clazz, index).Success? <==> SearchRequestOf(q, ctx, clazz, index).Success?
    ensures DeleteByQueryRequestOf(q, ctx, clazz, index).Success? ==>
      var d := DeleteByQueryRequestOf(q, ctx, clazz, index).value;
      d.query == QueryOf(q).value && !d.abortOnVersionConflict && d.refresh &&
      (d.batchSize.Some? <==> q.IsLimiting()) && d.scroll == q.scrollTime &&
      d.routing == q.route && d.indices == index.indexNames
  {
    SearchRequestShape(q, ctx, clazz, index);
  }

  /** `getMultiRequestItems`: one item per id, in order, on the first index
      name, with the query's route and source filter. */
  method MultiGetItems(q: QueryState, index: Index) returns (items: seq<MultiGetItem>)
    ensures q.ids.None? ==> items == []
    ensures q.ids.Some? ==> |items| == |q.ids.value|
    ensures q.ids.Some? ==> forall i :: 0 <= i < |items| ==>
      items[i] == MultiGetItem(IndexName(index), q.ids.value[i], q.route, FetchSourceContextOf(q))
  {
    items := [];
    var fetchSource := FetchSourceContextOf(q);
    if q.ids.Some? && q.ids.value != [] {
      var ids := q.ids.value;
      var indexName := IndexName(index);
      var i := 0;
      while i < |ids|
        invariant 0 <= i <= |ids|
        invariant |items| == i
        invariant forall k :: 0 <= k < i ==> items[k] == MultiGetItem(indexName, ids[k], q.route, fetchSource)
      {
        var item := MultiGetItem(indexName, ids[i], None, None);
        if q.route.Some? {
          item := item.(routing := q.route);
        }
        if fetchSource.Some? {
          item := item.(fetchSource := fetchSource);
        }
        items := items + [item];
        i := i + 1;
      }
    }
  }
}
