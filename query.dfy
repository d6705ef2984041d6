/** The query model: the configuration surface every query variant shares
    (`AbstractQuery`), the variant-specific payload, and the sort and paging
    values it is built from. */
module Query {
  import opened Wrappers
  import opened Elastic

  datatype Direction = Ascending | Descending

  datatype NullHandling = NativeNullHandling | NullsFirst | NullsLast

  /** `Sort.Order`; `geo` is present for its subclass `GeoDistanceOrder`. */
  datatype Order = Order(property: string, direction: Direction, nullHandling: NullHandling, geo: Option<GeoDistanceParams>)

  /** `Sort`: an ordered list of orders; the unsorted sort is the empty list. */
  type Sort = seq<Order>

  /** `Pageable`: a page request (page number, page size, sort) or the unpaged instance. */
  datatype Pageable = PageRequest(page: nat, size: nat, pageSort: Sort) | Unpaged {

    predicate IsPaged() {
      PageRequest?
    }

    /** `getSort()`: the unpaged instance is unsorted. */
    function SortOf(): Sort {
      if PageRequest? then pageSort else []
    }

    /** `getOffset()`: page number times page size. */
    function Offset(): nat
      requires IsPaged()
    {
      page * size
    }
  }

  /** `Query.DEFAULT_PAGE_SIZE` */
  const DefaultPageSize: nat := 10

  /** `Query.DEFAULT_PAGE`: the first page of the default size, unsorted. */
  const DefaultPage: Pageable := PageRequest(0, DefaultPageSize, [])

  datatype SourceFilter = SourceFilter(includes: seq<string>, excludes: seq<string>)

  datatype SearchType = QueryThenFetch | DfsQueryThenFetch

  datatype HighlightQuery = HighlightQuery(handle: nat)

  /** A criteria tree, identified by `id`. The criteria processors build a
      scoring query from its query part and a filter from its filter part;
      a part that is empty yields no builder. */
  datatype Criteria = Criteria(id: nat, hasQueryPart: bool, hasFilterPart: bool)

  /** The state only `NativeSearchQuery` carries. */
  datatype NativeParts = NativeParts(
    query: Option<QueryBuilder>,
    filter: Option<QueryBuilder>,
    elasticsearchSorts: Option<seq<SortBuilder>>,
    highlightBuilder: Option<HighlightBuilder>,
    highlightFields: Option<seq<HighlightField>>,
    scriptFields: seq<ScriptField>,
    collapseBuilder: Option<CollapseBuilder>,
    indicesBoost: Option<seq<IndexBoost>>,
    aggregations: Option<seq<Aggregation>>,
    pipelineAggregations: Option<seq<PipelineAggregation>>)

  /** Which `Query` implementation the object is; `Other` stands for any
      implementation the request factory does not know. */
  datatype Variant =
    | NativeSearch(native: NativeParts)
    | CriteriaSearch(criteria: Criteria)
    | StringSearch(source: string)
    | Other(className: string)

  datatype RescoreScoreMode = ScoreModeDefault | ScoreModeAvg | ScoreModeMax | ScoreModeMin | ScoreModeTotal | ScoreModeMultiply

  /** `RescorerQuery`; weights are floats, kept as reals and only passed on. */
  datatype RescorerQuery = RescorerQuery(
    query: QueryState,
    scoreMode: RescoreScoreMode,
    queryWeight: Option<real>,
    rescoreQueryWeight: Option<real>,
    windowSize: Option<int>)

  /** The value of every field of an `AbstractQuery`, plus its variant. */
  datatype QueryState = QueryState(
    pageable: Pageable,
    sort: Option<Sort>,
    fields: seq<string>,
    sourceFilter: Option<SourceFilter>,
    minScore: real,
    ids: Option<seq<string>>,
    route: Option<string>,
    searchType: SearchType,
    indicesOptions: Option<IndicesOptions>,
    trackScores: bool,
    preference: Option<string>,
    maxResults: Option<int>,
    highlightQuery: Option<HighlightQuery>,
    trackTotalHits: Option<bool>,
    trackTotalHitsUpTo: Option<int>,
    scrollTime: Option<Duration>,
    timeout: Option<Duration>,
    explain: bool,
    searchAfter: Option<seq<Value>>,
    rescorerQueries: seq<RescorerQuery>,
    requestCache: Option<bool>,
    variant: Variant)
  {
    /** `isLimiting()`: a maximum number of results is set. */
    predicate IsLimiting() {
      maxResults.Some?
    }

    /** `hasScrollTime()` of the `Query` interface: a scroll time is set. */
    predicate HasScrollTime() {
      scrollTime.Some?
    }
  }

  /** The state of a query just constructed as `variant`. */
  function InitialState(variant: Variant): (s: QueryState)
    ensures s.pageable == DefaultPage && s.searchType == QueryThenFetch
    ensures !s.explain && s.sort.None? && s.fields == [] && s.rescorerQueries == []
    ensures !s.IsLimiting() && s.variant == variant
  {
    QueryState(DefaultPage, None, [], None, 0.0, None, None, QueryThenFetch, None, false, None,
               None, None, None, None, None, None, false, None, [], None, variant)
  }

  /** The sort after `addSort(added)`: a null sort changes nothing, the first
      sort is taken as it is, and every later one is appended (`Sort.and`). */
  function SortAfterAdd(current: Option<Sort>, added: Option<Sort>): Option<Sort>
  {
    match added
    case None => current
    case Some(s) => if current.None? then Some(s) else Some(current.value + s)
  }

  /** Adding a sort never drops or reorders the orders already there, and the
      added orders follow them. */
  lemma AddSortAppends(current: Option<Sort>, added: Sort)
    ensures SortAfterAdd(current, Some(added)).Some?
    ensures SortAfterAdd(current, Some(added)).value == current.GetOr([]) + added
  {
  }

  /** Two successive `addSort` calls equal one call with the concatenated sort. */
  lemma AddSortTwice(current: Option<Sort>, a: Sort, b: Sort)
    ensures SortAfterAdd(SortAfterAdd(current, Some(a)), Some(b)) == SortAfterAdd(current, Some(a + b))
  {
    if current.Some? {
      assert current.value + a + b == current.value + (a + b);
    }
  }

  datatype Exception = IllegalArgument(message: string) | NullPointer

  /** A query object. Every setter changes its own field and nothing else;
      `State()` is the value of all fields. */
  class AbstractQuery {
    var pageable: Pageable
    var sort: Option<Sort>
    var fields: seq<string>
    var sourceFilter: Option<SourceFilter>
    var minScore: real
    var ids: Option<seq<string>>
    var route: Option<string>
    var searchType: SearchType
    var indicesOptions: Option<IndicesOptions>
    var trackScores: bool
    var preference: Option<string>
    var maxResults: Option<int>
    var highlightQuery: Option<HighlightQuery>
    var trackTotalHits: Option<bool>
    var trackTotalHitsUpTo: Option<int>
    var scrollTime: Option<Duration>
    var timeout: Option<Duration>
    var explain: bool
    var searchAfter: Option<seq<Value>>
    var rescorerQueries: seq<RescorerQuery>
    var requestCache: Option<bool>
    const variant: Variant

    function State(): QueryState
      reads this
    {
      QueryState(pageable, sort, fields, sourceFilter, minScore, ids, route, searchType, indicesOptions,
                 trackScores, preference, maxResults, highlightQuery, trackTotalHits, trackTotalHitsUpTo,
                 scrollTime, timeout, explain, searchAfter, rescorerQueries, requestCache, variant)
    }

    /** The field initialisers of `AbstractQuery`. */
    constructor (variant: Variant)
      ensures State() == InitialState(variant)
    {
      pageable := DefaultPage;
      sort := None;
      fields := [];
      sourceFilter := None;
      minScore := 0.0;
      ids := None;
      route := None;
      searchType := QueryThenFetch;
      indicesOptions := None;
      trackScores := false;
      preference := None;
      maxResults := None;
      highlightQuery := None;
      trackTotalHits := None;
      trackTotalHitsUpTo := None;
      scrollTime := None;
      timeout := None;
      explain := false;
      searchAfter := None;
      rescorerQueries := [];
      requestCache := None;
      this.variant := variant;
    }

    /** `setPageable`: rejects null; otherwise stores the pageable and adds its sort. */
    method SetPageable(p: Option<Pageable>) returns (thrown: Option<Exception>)
      modifies this
      ensures p.None? ==> thrown == Some(IllegalArgument("Pageable must not be null!")) && State() == old(State())
      ensures p.Some? ==> thrown.None?
      ensures p.Some? ==> State() == old(State()).(pageable := p.value, sort := SortAfterAdd(old(sort), Some(p.value.SortOf())))
    {
      if p.None? {
        return Some(IllegalArgument("Pageable must not be null!"));
      }
      pageable := p.value;
      AddSort(Some(p.value.SortOf()));
      thrown := None;
    }

    /** `addSort`: a null sort is ignored, the first is stored, later ones are appended. */
    method AddSort(s: Option<Sort>)
      modifies this
      ensures State() == old(State()).(sort := SortAfterAdd(old(sort), s))
    {
      if s.None? {
        return;
      }
      if sort.None? {
        sort := s;
      } else {
        sort := Some(sort.value + s.value);
      }
    }

    /** `addFields`: appends the given names, in order. */
    method AddFields(names: seq<string>)
      modifies this
      ensures State() == old(State()).(fields := old(fields) + names)
    {
      fields := fields + names;
    }

    /** `setFields`: rejects null; otherwise the list holds exactly the given names. */
    method SetFields(names: Option<seq<string>>) returns (thrown: Option<Exception>)
      modifies this
      ensures names.None? ==> thrown == Some(IllegalArgument("fields must not be null")) && State() == old(State())
      ensures names.Some? ==> thrown.None? && State() == old(State()).(fields := names.value)
    {
      if names.None? {
        return Some(IllegalArgument("fields must not be null"));
      }
      fields := [];
      fields := fields + names.value;
      thrown := None;
    }

    method AddSourceFilter(filter: Option<SourceFilter>)
      modifies this
      ensures State() == old(State()).(sourceFilter := filter)
    {
      sourceFilter := filter;
    }

    method SetMinScore(score: real)
      modifies this
      ensures State() == old(State()).(minScore := score)
    {
      minScore := score;
    }

    method SetIds(newIds: Option<seq<string>>)
      modifies this
      ensures State() == old(State()).(ids := newIds)
    {
      ids := newIds;
    }

    method SetRoute(newRoute: Option<string>)
      modifies this
      ensures State() == old(State()).(route := newRoute)
    {
      route := newRoute;
    }

    method SetSearchType(t: SearchType)
      modifies this
      ensures State() == old(State()).(searchType := t)
    {
      searchType := t;
    }

    method SetIndicesOptions(options: Option<IndicesOptions>)
      modifies this
      ensures State() == old(State()).(indicesOptions := options)
    {
      indicesOptions := options;
    }

    method SetTrackScores(track: bool)
      modifies this
      ensures State() == old(State()).(trackScores := track)
    {
      trackScores := track;
    }

    method SetPreference(newPreference: Option<string>)
      modifies this
      ensures State() == old(State()).(preference := newPreference)
    {
      preference := newPreference;
    }

    method SetMaxResults(max: Option<int>)
      modifies this
      ensures State() == old(State()).(maxResults := max)
      ensures State().IsLimiting() <==> max.Some?
    {
      maxResults := max;
    }

    method SetHighlightQuery(h: Option<HighlightQuery>)
      modifies this
      ensures State() == old(State()).(highlightQuery := h)
    {
      highlightQuery := h;
    }

    method SetTrackTotalHits(track: Option<bool>)
      modifies this
      ensures State() == old(State()).(trackTotalHits := track)
    {
      trackTotalHits := track;
    }

    method SetTrackTotalHitsUpTo(upTo: Option<int>)
      modifies this
      ensures State() == old(State()).(trackTotalHitsUpTo := upTo)
    {
      trackTotalHitsUpTo := upTo;
    }

    method SetScrollTime(d: Option<Duration>)
      modifies this
      ensures State() == old(State()).(scrollTime := d)
    {
      scrollTime := d;
    }

    method SetTimeout(d: Option<Duration>)
      modifies this
      ensures State() == old(State()).(timeout := d)
    {
      timeout := d;
    }

    method SetExplain(flag: bool)
      modifies this
      ensures State() == old(State()).(explain := flag)
    {
      explain := flag;
    }

    method SetSearchAfter(values: Option<seq<Value>>)
      modifies this
      ensures State() == old(State()).(searchAfter := values)
    {
      searchAfter := values;
    }

    /** `addRescorerQuery`: rejects null; otherwise appends one rescorer. */
    method AddRescorerQuery(r: Option<RescorerQuery>) returns (thrown: Option<Exception>)
      modifies this
      ensures r.None? ==> thrown == Some(IllegalArgument("rescorerQuery must not be null")) && State() == old(State())
      ensures r.Some? ==> thrown.None? && State() == old(State()).(rescorerQueries := old(rescorerQueries) + [r.value])
    {
      if r.None? {
        return Some(IllegalArgument("rescorerQuery must not be null"));
      }
      rescorerQueries := rescorerQueries + [r.value];
      thrown := None;
    }

    /** `setRescorerQueries` as written: the null check looks at the field, which is
        never null, so a null argument gets past it; the list is cleared and the
        `addAll(null)` that follows throws a NullPointerException. */
    method SetRescorerQueriesAsWritten(list: Option<seq<RescorerQuery>>) returns (thrown: Option<Exception>)
      modifies this
      ensures list.None? ==> thrown == Some(NullPointer) && State() == old(State()).(rescorerQueries := [])
      ensures list.Some? ==> thrown.None? && State() == old(State()).(rescorerQueries := list.value)
    {
      rescorerQueries := [];
      if list.None? {
        return Some(NullPointer);
      }
      rescorerQueries := rescorerQueries + list.value;
      thrown := None;
    }

    /** `setRescorerQueries` with the null check on the argument, as its message
        intends: null is rejected before anything changes; otherwise the list is
        replaced wholesale. */
    method SetRescorerQueries(list: Option<seq<RescorerQuery>>) returns (thrown: Option<Exception>)
      modifies this
      ensures list.None? ==> thrown == Some(IllegalArgument("rescorerQueries must not be null")) && State() == old(State())
      ensures list.Some? ==> thrown.None? && State() == old(State()).(rescorerQueries := list.value)
    {
      if list.None? {
        return Some(IllegalArgument("rescorerQueries must not be null"));
      }
      rescorerQueries := [];
      rescorerQueries := rescorerQueries + list.value;
      thrown := None;
    }

    method SetRequestCache(value: Option<bool>)
      modifies this
      ensures State() == old(State()).(requestCache := value)
    {
      requestCache := value;
    }
  }

  /** Finding, as written: after `addRescorerQuery(r)`, `setRescorerQueries(null)`
      fails and yet leaves the query without its rescorer. */
  method RescorerLostOnNull(variant: Variant, r: RescorerQuery) returns (thrown: Option<Exception>, left: seq<RescorerQuery>)
    ensures thrown == Some(NullPointer)
    ensures left == []
  {
    var q := new AbstractQuery(variant);
    var added := q.AddRescorerQuery(Some(r));
    thrown := q.SetRescorerQueriesAsWritten(None);
    left := q.rescorerQueries;
  }

  /** Finding, corrected: the same calls reject the null argument and keep the rescorer. */
  method RescorerKeptOnNull(variant: Variant, r: RescorerQuery) returns (thrown: Option<Exception>, left: seq<RescorerQuery>)
    ensures thrown == Some(IllegalArgument("rescorerQueries must not be null"))
    ensures left == [r]
  {
    var q := new AbstractQuery(variant);
    var added := q.AddRescorerQuery(Some(r));
    thrown := q.SetRescorerQueries(None);
    left := q.rescorerQueries;
  }

  /** A client of the class that builds its query like `searchShouldApplyPagingCorrectly`
      (src/test/java/org/springframework/data/elasticsearch/core/ReactiveElasticsearchTemplateIntegrationTests.java:482-484),
      then sorts its page: the sort accumulates across `addSort` and
      `setPageable`, and setting the route leaves sort and paging alone. */
  method SortThenPage(variant: Variant, a: Order, b: Order, route: string)
    returns (sort: Option<Sort>, pageable: Pageable, limiting: bool)
    ensures sort == Some([a, b])
    ensures pageable == PageRequest(0, 20, [b])
    ensures !limiting
  {
    var q := new AbstractQuery(variant);
    q.AddSort(Some([a]));
    var thrown := q.SetPageable(Some(PageRequest(0, 20, [b])));
    q.SetRoute(Some(route));
    assert [a] + [b] == [a, b];
    sort, pageable, limiting := q.sort, q.pageable, q.State().IsLimiting();
  }
}
