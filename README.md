# Spring Data Elasticsearch: queries, request translation and hit mapping

This project models three parts of Spring Data Elasticsearch:

- **The query object.** `AbstractQuery` holds paging, sorting, field and source
  selection, routing, search type, total-hits tracking, rescorers and the other
  search options. Its setters update these in place. The model is the class
  `Query.AbstractQuery`. Its fields mirror the Java fields, and `State()` reads
  them back as one `QueryState` value. Each setter states the new state outright,
  including the argument checks that throw.
- **Request translation.** `RequestFactory` turns a query into the Elasticsearch
  library's requests: search, delete-by-query, multi-get items, index, update,
  update-by-query, bulk and indices-aliases. Library builders are records in
  module `Elastic`. The builder sequences of `prepareSearchRequest`,
  `updateRequest`, `updateByQueryRequest`, `bulkRequest`
  and `indicesAliasesRequest` are Dafny methods, each proved equal to a
  specification function. `getMultiRequestItems` is a method whose contract
  gives the items one by one. The short compositions
  `searchRequest`, `deleteByQueryRequest` and `indexRequest` are modelled as
  functions only. Lemmas state what each request holds.
- **Search hit mapping.** `SearchHitMapping` turns the documents of a search
  response into search hits:
  - it renames highlight fields from Elasticsearch field names to property names;
  - it maps inner hits recursively;
  - it reads inner documents as objects of the nested entity that their nested
    metadata leads to.

  The loops of the source are methods proved equal to recursive specification
  functions. Lemmas state how each hit relates to its document.

Entity metadata is a value. A `MappingContext` maps a type name to an `Entity`,
which holds its properties (property name, Elasticsearch field name, actual type),
its version type and its sequence-number flag. The entity converter is visible
only through its mapping context and through the set of documents whose reading
throws.

Modules:

| module | file | models |
|---|---|---|
| `Wrappers` | wrappers.dfy | `Option` and `Result` |
| `Metadata` | metadata.dfy | persistent entities, properties, the mapping context |
| `Elastic` | elastic.dfy | the library's builders and requests |
| `Query` | query.dfy | `AbstractQuery` and the values it holds |
| `Operations` | operations.dfy | index, update and alias operations, bulk options |
| `Requests` | requests.dfy | the requests the factory produces |
| `FactoryHelpers` | factory_helpers.dfy | query and filter dispatch, scripts, refresh policy, version type, the shared list translation |
| `SearchRequests` | search_requests.dfy | sort builders, `prepareSearchRequest`, delete-by-query, multi-get |
| `WriteRequests` | write_requests.dfy | index, update, update-by-query and bulk requests |
| `AliasRequests` | alias_requests.dfy | the indices-aliases request |
| `SearchDocuments` | search_documents.dfy | search documents, responses, search hits |
| `SearchHitMapping` | search_hit_mapping.dfy | `SearchHitMapping` |

## Model

| member | source | states |
|---|---|---|
| Metadata.PersistentEntity | src/main/java/org/springframework/data/elasticsearch/core/RequestFactory.java:1648-1650 | an entity is found exactly when the type is known to the mapping context, and it is that type's entity |
| Metadata.PropertyNamed | src/main/java/org/springframework/data/elasticsearch/core/RequestFactory.java:1212-1215 | a property is found only if the entity has one with that name, and nothing is found exactly when no property has that name |
| Metadata.PropertyWithFieldName | src/main/java/org/springframework/data/elasticsearch/core/SearchHitMapping.java:134-137 | a property is found only if the entity has one with that field name, and nothing is found exactly when no property has that field name |
| Metadata.FieldNameLookupUnique | src/main/java/org/springframework/data/elasticsearch/core/SearchHitMapping.java:134-137 | when field names are distinct, looking up a property's field name finds that very property |
| Metadata.NameLookupUnique | src/main/java/org/springframework/data/elasticsearch/core/RequestFactory.java:1212-1215 | when property names are distinct, looking up a property's name finds that very property |
| Query.InitialState | src/main/java/org/springframework/data/elasticsearch/core/query/AbstractQuery.java:45-65 | a new query has the default page, query-then-fetch, no explain, no sort, no fields and no rescorers, and is not limiting |
| Query.QueryState.IsLimiting | src/main/java/org/springframework/data/elasticsearch/core/query/AbstractQuery.java:212-214 | defines `isLimiting()`: a maximum number of results is set; `SetMaxResults`, `PagingRules` and `DeleteByQueryShape` state its effects |
| Query.AddSortAppends | src/main/java/org/springframework/data/elasticsearch/core/query/AbstractQuery.java:119-131 | adding a sort gives the old orders, or none, followed by the added orders |
| Query.AddSortTwice | src/main/java/org/springframework/data/elasticsearch/core/query/AbstractQuery.java:119-131 | adding two sorts one after the other equals adding their concatenation |
| Query.AbstractQuery.constructor | src/main/java/org/springframework/data/elasticsearch/core/query/AbstractQuery.java:45-65 | the new object's state is the initial state of its query kind |
| Query.AbstractQuery.SetPageable | src/main/java/org/springframework/data/elasticsearch/core/query/AbstractQuery.java:79-85 | null throws "Pageable must not be null!" and changes nothing; otherwise sets the page and adds the page's sort to the query's sort, changing nothing else |
| Query.AbstractQuery.AddSort | src/main/java/org/springframework/data/elasticsearch/core/query/AbstractQuery.java:119-131 | a null sort changes nothing; otherwise it is set, or appended to the existing sort; nothing else changes |
| Query.AbstractQuery.AddFields | src/main/java/org/springframework/data/elasticsearch/core/query/AbstractQuery.java:88-90 | the names are appended to the fields; nothing else changes |
| Query.AbstractQuery.SetFields | src/main/java/org/springframework/data/elasticsearch/core/query/AbstractQuery.java:98-104 | null throws "fields must not be null" and changes nothing; otherwise the fields are replaced by the list |
| Query.AbstractQuery.AddSourceFilter | src/main/java/org/springframework/data/elasticsearch/core/query/AbstractQuery.java:107-109 | sets the source filter and nothing else |
| Query.AbstractQuery.SetMinScore | src/main/java/org/springframework/data/elasticsearch/core/query/AbstractQuery.java:138-140 | sets the minimum score and nothing else |
| Query.AbstractQuery.SetIds | src/main/java/org/springframework/data/elasticsearch/core/query/AbstractQuery.java:148-150 | sets the ids and nothing else |
| Query.AbstractQuery.SetRoute | src/main/java/org/springframework/data/elasticsearch/core/query/AbstractQuery.java:158-160 | sets the route and nothing else |
| Query.AbstractQuery.SetSearchType | src/main/java/org/springframework/data/elasticsearch/core/query/AbstractQuery.java:162-164 | sets the search type and nothing else |
| Query.AbstractQuery.SetIndicesOptions | src/main/java/org/springframework/data/elasticsearch/core/query/AbstractQuery.java:177-179 | sets the indices options and nothing else |
| Query.AbstractQuery.SetTrackScores | src/main/java/org/springframework/data/elasticsearch/core/query/AbstractQuery.java:196-198 | sets score tracking and nothing else |
| Query.AbstractQuery.SetPreference | src/main/java/org/springframework/data/elasticsearch/core/query/AbstractQuery.java:207-209 | sets the preference and nothing else |
| Query.AbstractQuery.SetMaxResults | src/main/java/org/springframework/data/elasticsearch/core/query/AbstractQuery.java:212-224 | sets the maximum number of results and nothing else; the query is then limiting exactly when a maximum was given |
| Query.AbstractQuery.SetHighlightQuery | src/main/java/org/springframework/data/elasticsearch/core/query/AbstractQuery.java:227-229 | sets the highlight query and nothing else |
| Query.AbstractQuery.SetTrackTotalHits | src/main/java/org/springframework/data/elasticsearch/core/query/AbstractQuery.java:237-239 | sets total-hits tracking and nothing else |
| Query.AbstractQuery.SetTrackTotalHitsUpTo | src/main/java/org/springframework/data/elasticsearch/core/query/AbstractQuery.java:248-250 | sets the total-hits tracking limit and nothing else |
| Query.AbstractQuery.SetScrollTime | src/main/java/org/springframework/data/elasticsearch/core/query/AbstractQuery.java:265-267 | sets the scroll time and nothing else |
| Query.AbstractQuery.SetTimeout | src/main/java/org/springframework/data/elasticsearch/core/query/AbstractQuery.java:281-283 | sets the timeout and nothing else |
| Query.AbstractQuery.SetExplain | src/main/java/org/springframework/data/elasticsearch/core/query/AbstractQuery.java:293-295 | sets explain and nothing else |
| Query.AbstractQuery.SetSearchAfter | src/main/java/org/springframework/data/elasticsearch/core/query/AbstractQuery.java:298-300 | sets the search-after values and nothing else |
| Query.AbstractQuery.AddRescorerQuery | src/main/java/org/springframework/data/elasticsearch/core/query/AbstractQuery.java:309-314 | null throws "rescorerQuery must not be null" and changes nothing; otherwise the rescorer is appended |
| Query.AbstractQuery.SetRescorerQueriesAsWritten | src/main/java/org/springframework/data/elasticsearch/core/query/AbstractQuery.java:317-323 | as written: a null list empties the rescorers and then throws a null-pointer exception; otherwise the rescorers become the list |
| Query.AbstractQuery.SetRescorerQueries | src/main/java/org/springframework/data/elasticsearch/core/query/AbstractQuery.java:317-323 | as intended: a null list throws "rescorerQueries must not be null" and changes nothing; otherwise the rescorers become the list |
| Query.AbstractQuery.SetRequestCache | src/main/java/org/springframework/data/elasticsearch/core/query/AbstractQuery.java:331-333 | sets the request cache flag and nothing else |
| Query.RescorerLostOnNull | src/main/java/org/springframework/data/elasticsearch/core/query/AbstractQuery.java:317-323 | with the setter as written, a query holding one rescorer loses it when given null, and a null-pointer exception follows |
| Query.RescorerKeptOnNull | src/main/java/org/springframework/data/elasticsearch/core/query/AbstractQuery.java:317-323 | with the corrected setter, the same call is refused with the argument message and the rescorer is kept |
| Query.SortThenPage | src/main/java/org/springframework/data/elasticsearch/core/query/AbstractQuery.java:79-131 | adding a sort and then a sorted page gives the concatenated sort, keeps the page, and leaves the query not limiting |
| FactoryHelpers.QueryOf | src/main/java/org/springframework/data/elasticsearch/core/RequestFactory.java:1568-1585 | defines `getQuery` per query kind; `QueryAndFilterDispatch` states its cases |
| FactoryHelpers.FilterOf | src/main/java/org/springframework/data/elasticsearch/core/RequestFactory.java:1588-1604 | defines `getFilter` per query kind; `QueryAndFilterDispatch` states its cases |
| FactoryHelpers.QueryAndFilterDispatch | src/main/java/org/springframework/data/elasticsearch/core/RequestFactory.java:1568-1604 | a native query gives its query and filter; a criteria query gives its query part and its filter part, each only when it has one; a string query gives a wrapper query and no filter; any other kind is refused with its class name |
| FactoryHelpers.AliasFilterOf | src/main/java/org/springframework/data/elasticsearch/core/RequestFactory.java:177-188 | an alias filter is the query's filter, or its scoring query when it has no filter; it fails exactly for an unknown query kind |
| FactoryHelpers.ToWriteRefreshPolicy | src/main/java/org/springframework/data/elasticsearch/core/RequestFactory.java:1606-1616 | each refresh policy maps to its library counterpart, one to one |
| FactoryHelpers.ScriptKindOf | src/main/java/org/springframework/data/elasticsearch/core/RequestFactory.java:1715-1722 | the script is stored exactly when the type is stored; inline otherwise, including no type |
| FactoryHelpers.ScriptOf | src/main/java/org/springframework/data/elasticsearch/core/RequestFactory.java:1725-1737 | defines `getScript`; `ScriptSelection` states when a script is made and what it holds |
| FactoryHelpers.ScriptSelection | src/main/java/org/springframework/data/elasticsearch/core/RequestFactory.java:1725-1737 | there is a script exactly for a stored type with a name or an inline type with a source; a stored one has no language and uses the name; an inline one uses the language and source; parameters default to empty |
| FactoryHelpers.ConvertedVersionTypeMatches | src/main/java/org/springframework/data/elasticsearch/core/RequestFactory.java:1686-1688 | converting an entity's version type by name gives the library version type of the same name |
| FactoryHelpers.VersionTypeOf | src/main/java/org/springframework/data/elasticsearch/core/RequestFactory.java:1672-1692 | defines `retrieveVersionTypeFromPersistentEntity`; `VersionTypeDefault` states its result |
| FactoryHelpers.VersionTypeDefault | src/main/java/org/springframework/data/elasticsearch/core/RequestFactory.java:1672-1692 | the entity's declared version type is used when there is one; otherwise the type is external |
| FactoryHelpers.FetchSourceContextOf | src/main/java/org/springframework/data/elasticsearch/core/RequestFactory.java:1619-1628 | defines `getFetchSourceContext`: fetch the source with the filter's include and exclude patterns when the query has a source filter, else none; `MultiGetItems` and `ApplyFetchOptions` state where it is used |
| FactoryHelpers.EntityFor | src/main/java/org/springframework/data/elasticsearch/core/RequestFactory.java:1647-1650 | defines `getPersistentEntity(clazz)`: no entity without a class, else the mapping context's entity for it |
| FactoryHelpers.PersistentEntityId | src/main/java/org/springframework/data/elasticsearch/core/RequestFactory.java:1652-1669 | defines `getPersistentEntityId`: the identifier of an object whose class has an entity, else none; `IndexRequestRules` states when it is the request's id |
| FactoryHelpers.HasSeqNoPrimaryTermProperty | src/main/java/org/springframework/data/elasticsearch/core/RequestFactory.java:1700-1713 | defines `hasSeqNoPrimaryTermProperty`: false without a class or entity, else the entity's flag; `PreparePaging` states that it turns on sequence numbers |
| FactoryHelpers.AppendAll | src/main/java/org/springframework/data/elasticsearch/core/RequestFactory.java:1178-1183 | the elements are appended after the existing ones, in order |
| FactoryHelpers.TranslateAllCharacterized | src/main/java/org/springframework/data/elasticsearch/core/RequestFactory.java:250-257 | translating a list fails exactly when an element fails, with the first failing element's error; on success, element i is the translation of input i |
| FactoryHelpers.TranslateAllPrefixFailure | src/main/java/org/springframework/data/elasticsearch/core/RequestFactory.java:250-257 | once a prefix fails, the whole list fails with the same error |
| SearchRequests.ToInt32 | src/main/java/org/springframework/data/elasticsearch/core/RequestFactory.java:947 | the cast yields a 32-bit value congruent to its input modulo 2^32 |
| SearchRequests.CastKeepsSmallOffset | src/main/java/org/springframework/data/elasticsearch/core/RequestFactory.java:947 | an offset that fits in 32 bits survives the cast |
| SearchRequests.SortOrderOf | src/main/java/org/springframework/data/elasticsearch/core/RequestFactory.java:1205 | the sort order is descending exactly when the direction is |
| SearchRequests.SortBuilderRules | src/main/java/org/springframework/data/elasticsearch/core/RequestFactory.java:1204-1241 | `_score` gives a score sort; a geo order gives a geo-distance sort on its point; any other order gives a field sort in its direction, with `_first`/`_last` exactly for nulls first/last; field sorts and geo sorts use the property's field name, or the order's property when the entity has no such property |
| SearchRequests.SortFieldRoundTrip | src/main/java/org/springframework/data/elasticsearch/core/RequestFactory.java:1212-1215 | sorting by a property of a well-formed entity uses its field name, and that field name leads back to the property |
| SearchRequests.SortBuilderAsWritten | src/main/java/org/springframework/data/elasticsearch/core/RequestFactory.java:1204-1241 | defines `getSortBuilder` as written: a score sort in the order's direction for `_score`, a geo-distance sort with no order for a geo order, else a field sort with direction and `missing`; the field name is resolved through the entity |
| SearchRequests.SortBuilderOf | src/main/java/org/springframework/data/elasticsearch/core/RequestFactory.java:1204-1241 | defines `getSortBuilder` with the direction also applied to geo-distance sorts; `SortBuilderRules` states its rules |
| SearchRequests.CorrectionOnlyAddsGeoDirection | src/main/java/org/springframework/data/elasticsearch/core/RequestFactory.java:1204-1241 | the corrected builder equals the builder as written except that a geo-distance sort gets the order's direction; an ascending geo order gets the ascending order the library defaults to |
| SearchRequests.GeoSortDirectionLost | src/main/java/org/springframework/data/elasticsearch/core/RequestFactory.java:1217-1227 | as written, a descending geo-distance order produces a sort with no order set |
| SearchRequests.SortDirectionAlwaysApplied | src/main/java/org/springframework/data/elasticsearch/core/RequestFactory.java:1204-1241 | as intended, every sort built from an order carries the order's direction, geo-distance sorts included |
| SearchRequests.SortBuildersOf | src/main/java/org/springframework/data/elasticsearch/core/RequestFactory.java:1175-1177 | one sort builder per order, in order (geo-distance sorts with the corrected direction, see Findings) |
| SearchRequests.SortsOrdered | src/main/java/org/springframework/data/elasticsearch/core/RequestFactory.java:1172-1186 | the sorts are the query's orders translated in order (geo-distance sorts with the corrected direction, see Findings), followed by the native query's own sorts |
| SearchRequests.SortsOf | src/main/java/org/springframework/data/elasticsearch/core/RequestFactory.java:1172-1186 | defines the sorts `prepareSort` adds: the translated orders, then the native sorts; `SortsOrdered` states their layout |
| SearchRequests.AddSortBuilders | src/main/java/org/springframework/data/elasticsearch/core/RequestFactory.java:1175-1177 | the loop appends the sort builder of each order to the existing sorts (geo-distance sorts with the corrected direction, see Findings) |
| SearchRequests.SortBuildersStep | src/main/java/org/springframework/data/elasticsearch/core/RequestFactory.java:1175-1177 | the sort builders of one more order are the previous ones followed by the builder of that order |
| SearchRequests.PrepareSort | src/main/java/org/springframework/data/elasticsearch/core/RequestFactory.java:1172-1186 | the source gets the query's sorts appended (geo-distance sorts with the corrected direction, see Findings) and nothing else changes |
| SearchRequests.SortBuildersAppend | src/main/java/org/springframework/data/elasticsearch/core/RequestFactory.java:1175-1177 | translating one more order appends exactly its sort builder |
| SearchRequests.HighlighterOf | src/main/java/org/springframework/data/elasticsearch/core/RequestFactory.java:809-836 | a highlight query wins; otherwise a native query's highlight builder and fields are used; there is no highlighter exactly when neither is present |
| SearchRequests.WithNativeParts | src/main/java/org/springframework/data/elasticsearch/core/RequestFactory.java:1117-1143 | defines what `prepareNativeSearch` adds: the script fields, the collapse builder when set, the index boosts and both kinds of aggregation, each appended after what the source has; `PrepareNativeSearch` is proved equal to it and `NativeOnlyParts` states that other queries get none |
| SearchRequests.PrepareNativeSearch | src/main/java/org/springframework/data/elasticsearch/core/RequestFactory.java:1117-1143 | the native query's script fields, collapse, index boosts and aggregations are added to the source |
| SearchRequests.TrackTotalHitsPrecedence | src/main/java/org/springframework/data/elasticsearch/core/RequestFactory.java:995-999 | the track-total-hits flag wins over the limit; the limit is used exactly when there is no flag; nothing is set when both are absent |
| SearchRequests.SearchTypeOf | src/main/java/org/springframework/data/elasticsearch/core/RequestFactory.java:981 | the request's search type is DFS-query-then-fetch exactly when the query's is |
| SearchRequests.RescoreModeOf | src/main/java/org/springframework/data/elasticsearch/core/RequestFactory.java:1250-1252 | the score mode is set exactly when the query gives one other than the default, and it is then the library mode of the same name, as `valueOf(name())` picks it |
| SearchRequests.RescorerOf | src/main/java/org/springframework/data/elasticsearch/core/RequestFactory.java:1243-1268 | a rescorer carries the rescore query, the converted score mode, the window size and the weights; it fails exactly for an unknown query kind |
| SearchRequests.RescorersCharacterized | src/main/java/org/springframework/data/elasticsearch/core/RequestFactory.java:1016 | the rescorers fail exactly when one has an unknown query kind, naming the first; otherwise one rescorer per rescorer query, in order |
| SearchRequests.AddRescorers | src/main/java/org/springframework/data/elasticsearch/core/RequestFactory.java:1016 | the loop adds the rescorers in order, or stops with the first failure |
| SearchRequests.SearchRoutingOf | src/main/java/org/springframework/data/elasticsearch/core/RequestFactory.java:1001-1003 | the route is used exactly when it is present and not empty |
| SearchRequests.PrepareRequestOptions | src/main/java/org/springframework/data/elasticsearch/core/RequestFactory.java:964-1020 | the request targets the index names and carries the indices options, preference, lower-cased search type, non-empty route and request cache of the query |
| SearchRequests.PreparePaging | src/main/java/org/springframework/data/elasticsearch/core/RequestFactory.java:938-952 | the source asks for versions, tracks scores as the query says, asks for sequence numbers when the entity has that property, and pages from the offset (or 0) with the page size (or the 10000 result window) |
| SearchRequests.ApplyFetchOptions | src/main/java/org/springframework/data/elasticsearch/core/RequestFactory.java:954-975 | the source filter, the requested fields after those already fetched, the maximum results when limiting and a positive minimum score are set on the source |
| SearchRequests.ApplySortsAndHighlights | src/main/java/org/springframework/data/elasticsearch/core/RequestFactory.java:983-993 | the sort builders (geo-distance sorts with the corrected direction, see Findings), the highlighter when the query has one, and the native query parts are set on the source |
| SearchRequests.ApplyTracking | src/main/java/org/springframework/data/elasticsearch/core/RequestFactory.java:995-1014 | total-hits tracking (the flag before the bound), the timeout, explain and search-after are set on the source |
| SearchRequests.SearchSourceParts | src/main/java/org/springframework/data/elasticsearch/core/RequestFactory.java:932-1024 | a built search source has no post filter and one rescorer per rescorer query |
| SearchRequests.PreparedSource | src/main/java/org/springframework/data/elasticsearch/core/RequestFactory.java:932-1024 | the prepared source is the paged source decorated with sorts (geo-distance sorts with the corrected direction, see Findings), highlighter, native parts and tracking, with one rescorer per rescorer query |
| SearchRequests.DecoratedSourceKeeps | src/main/java/org/springframework/data/elasticsearch/core/RequestFactory.java:983-1014 | decorating a source leaves its query, post filter, rescorers, from and size as they were |
| SearchRequests.PreparedSearch | src/main/java/org/springframework/data/elasticsearch/core/RequestFactory.java:932-1024 | defines `prepareSearchRequest`: the request-level options of the query around the paged, decorated source with its rescorers; `PrepareSearchRequest` is proved equal to it and `PagingRules`, `PreparedSource`, `UnpagedSearchIsCapped` and `NativeOnlyParts` state its contents |
| SearchRequests.PrepareSearchRequest | src/main/java/org/springframework/data/elasticsearch/core/RequestFactory.java:932-1024 | the method builds exactly the specified search request, whose geo-distance sorts carry the corrected direction (see Findings) |
| SearchRequests.PagingRules | src/main/java/org/springframework/data/elasticsearch/core/RequestFactory.java:946-971 | `from` is the page offset cast to 32 bits, or 0 unpaged; the size is the maximum when limiting, else the page size, else the 10000 result window |
| SearchRequests.UnpagedSearchIsCapped | src/main/java/org/springframework/data/elasticsearch/core/RequestFactory.java:949-952 | an unpaged, non-limiting query asks for 10000 results from 0 |
| SearchRequests.NativeOnlyParts | src/main/java/org/springframework/data/elasticsearch/core/RequestFactory.java:983-993 | a query that is not native gets no script fields, collapse, boosts or aggregations; its sorts are its own orders only (geo-distance sorts with the corrected direction, see Findings); it has a highlighter exactly when it has a highlight query |
| SearchRequests.SearchRequestOf | src/main/java/org/springframework/data/elasticsearch/core/RequestFactory.java:898-913 | defines `searchRequest`: the prepared request with the query's scoring query set and its filter as post filter; `SearchRequestShape` states when it is built and what it holds |
| SearchRequests.SearchRequestShape | src/main/java/org/springframework/data/elasticsearch/core/RequestFactory.java:898-913 | the search request is built exactly when the query and every rescore query are of a known kind; it then targets the index names and carries the query, filter, preference, request cache, indices options, non-empty route, and one rescorer per rescorer query |
| SearchRequests.SearchRequestSucceeds | src/main/java/org/springframework/data/elasticsearch/core/RequestFactory.java:898-913 | the search request is built exactly when the query and every rescore query are of a known kind |
| SearchRequests.SearchRequestContents | src/main/java/org/springframework/data/elasticsearch/core/RequestFactory.java:898-913 | a built search request targets the index names and carries the query, filter, preference, request cache, indices options, non-empty route and one rescorer per rescorer query |
| SearchRequests.DeleteByQueryRequestOf | src/main/java/org/springframework/data/elasticsearch/core/RequestFactory.java:566-588 | defines `deleteByQueryRequest` from the search request; `DeleteByQueryShape` states what it holds |
| SearchRequests.DeleteByQueryShape | src/main/java/org/springframework/data/elasticsearch/core/RequestFactory.java:566-588 | delete-by-query succeeds exactly when the search request does; it carries the query, does not abort on conflicts, refreshes, has a batch size exactly when limiting, scrolls for the query's scroll time, and copies the route and the indices |
| SearchRequests.MultiGetItems | src/main/java/org/springframework/data/elasticsearch/core/RequestFactory.java:673-698 | one item per id, in order, each on the index name with the route and fetch-source context; no ids gives no items |
| WriteRequests.OpTypeOf | src/main/java/org/springframework/data/elasticsearch/core/RequestFactory.java:746-754 | the operation is create exactly when the query asks for create |
| WriteRequests.IndexRequestOf | src/main/java/org/springframework/data/elasticsearch/core/RequestFactory.java:703-757 | defines `indexRequest`; `IndexRequestRules` states its rules |
| WriteRequests.IndexRequestRules | src/main/java/org/springframework/data/elasticsearch/core/RequestFactory.java:703-757 | it fails exactly when the query has neither object nor source; an explicit non-empty id is kept, else the entity's id is used; the version type is set exactly with a version, from the entity or external; sequence number, primary term and routing are copied; an operation type is converted when one is set |
| WriteRequests.UpdateFetchSourceRules | src/main/java/org/springframework/data/elasticsearch/core/RequestFactory.java:1307-1317 | includes or excludes give a context with both lists, fetching unless told not to; a bare flag gives a context with no lists; nothing is set exactly when all three are absent |
| WriteRequests.UpdateRequestOf | src/main/java/org/springframework/data/elasticsearch/core/RequestFactory.java:1272-1344 | defines `updateRequest`; `BuildUpdateRequest` is proved equal to it and `AllOptionsReachUpdateRequest` states its contents |
| WriteRequests.BuildUpdateRequest | src/main/java/org/springframework/data/elasticsearch/core/RequestFactory.java:1272-1344 | the method builds exactly the specified update request |
| WriteRequests.SetUpdateContent | src/main/java/org/springframework/data/elasticsearch/core/RequestFactory.java:1277-1305 | script, document, upsert, routing and the upsert flags are copied from the update query; nothing else changes |
| WriteRequests.SetUpdateFetchSource | src/main/java/org/springframework/data/elasticsearch/core/RequestFactory.java:1307-1317 | only the fetch-source context is set |
| WriteRequests.SetUpdateConcurrency | src/main/java/org/springframework/data/elasticsearch/core/RequestFactory.java:1319-1341 | sequence number, primary term, converted refresh policy, retries, timeout and active shards are copied; nothing else changes |
| WriteRequests.AllOptionsReachUpdateRequest | src/test/java/org/springframework/data/elasticsearch/core/ElasticsearchRestTemplateTests.java:89-125 | every option of a fully set update query reaches the update request with the expected value |
| WriteRequests.UpdateByQueryRequestOf | src/main/java/org/springframework/data/elasticsearch/core/RequestFactory.java:1420-1489 | defines `updateByQueryRequest`; `UpdateByQueryRefresh`, `UpdateByQueryFailure` and `ByQueryTestOptions` state its properties |
| WriteRequests.BuildUpdateByQueryRequest | src/main/java/org/springframework/data/elasticsearch/core/RequestFactory.java:1420-1489 | the method builds exactly the specified update-by-query request |
| WriteRequests.SetByQueryOptions | src/main/java/org/springframework/data/elasticsearch/core/RequestFactory.java:1448-1486 | the max docs, retries, pipeline, refresh flag, rate, routing, store flag, slices, timeout and active shards are copied; nothing else changes |
| WriteRequests.SetByQueryExecution | src/main/java/org/springframework/data/elasticsearch/core/RequestFactory.java:1468-1486 | routing, store flag, slices, timeout and active shards are copied; nothing else changes |
| WriteRequests.UpdateByQueryRefresh | src/main/java/org/springframework/data/elasticsearch/core/RequestFactory.java:1460-1462 | update-by-query refreshes exactly for the immediate policy; wait-until becomes no refresh here but stays wait-until on a single update |
| WriteRequests.UpdateByQueryFailure | src/main/java/org/springframework/data/elasticsearch/core/RequestFactory.java:1434-1446 | update-by-query fails exactly when its search query is of an unknown kind |
| WriteRequests.ByQueryTestOptions | src/test/java/org/springframework/data/elasticsearch/core/ElasticsearchRestTemplateTests.java:127-175 | every option of a fully set update-by-query reaches the request with the expected value |
| WriteRequests.PresentAppend | src/main/java/org/springframework/data/elasticsearch/core/RequestFactory.java:250-257 | skipping absent items distributes over appending one item |
| WriteRequests.BulkRequestOf | src/main/java/org/springframework/data/elasticsearch/core/RequestFactory.java:227-259 | defines `bulkRequest`; `BulkPreservesOrder` and `BulkFailure` state its properties |
| WriteRequests.BuildBulkRequest | src/main/java/org/springframework/data/elasticsearch/core/RequestFactory.java:227-259 | the method builds exactly the specified bulk request |
| WriteRequests.AddBulkItems | src/main/java/org/springframework/data/elasticsearch/core/RequestFactory.java:250-257 | the loop adds the request of each index or update query in order and skips other elements, or stops with the first failure |
| WriteRequests.BulkPreservesOrder | src/main/java/org/springframework/data/elasticsearch/core/RequestFactory.java:250-257 | request i is the write request of the i-th index or update element, in input order |
| WriteRequests.BulkFailure | src/main/java/org/springframework/data/elasticsearch/core/RequestFactory.java:250-257 | a bulk request fails exactly when some index query has neither object nor source |
| AliasRequests.AliasActionOf | src/main/java/org/springframework/data/elasticsearch/core/RequestFactory.java:164-208 | defines the library action of one alias action: add with its parameters and filter, remove, or remove-index on the first index |
| AliasRequests.IndicesAliasesRequestOf | src/main/java/org/springframework/data/elasticsearch/core/RequestFactory.java:157-216 | defines `indicesAliasesRequest` as the translation of every action; `AliasActionsInOrder` states its properties |
| AliasRequests.BuildIndicesAliasesRequest | src/main/java/org/springframework/data/elasticsearch/core/RequestFactory.java:157-216 | the loop builds exactly the specified list of alias actions, or stops with the first failure |
| AliasRequests.AliasActionsInOrder | src/main/java/org/springframework/data/elasticsearch/core/RequestFactory.java:157-216 | one library action per alias action, in order and of the same kind; it fails exactly for a remove-index without indices or an add whose filter query is of an unknown kind |
| AliasRequests.AddFilterFallsBackToQuery | src/main/java/org/springframework/data/elasticsearch/core/RequestFactory.java:177-188 | an added alias is filtered by the filter query's filter, or by its scoring query when it has none |
| AliasRequests.RemoveIndexUsesFirstIndex | src/main/java/org/springframework/data/elasticsearch/core/RequestFactory.java:200-207 | a remove-index action removes only the first index named, with no aliases |
| SearchHitMapping.RelationOf | src/main/java/org/springframework/data/elasticsearch/core/SearchHitMapping.java:98 | the relation name parses exactly for the three enum constant names, back to the same name; any other name fails with that name |
| SearchHitMapping.RelationNameRoundTrip | src/main/java/org/springframework/data/elasticsearch/core/SearchHitMapping.java:98 | parsing a relation's name gives the relation back |
| SearchHitMapping.RemapFieldNames | src/main/java/org/springframework/data/elasticsearch/core/SearchHitMapping.java:134-137 | defines the renaming of highlight keys from field names to property names, failing on a duplicate key; `RemapKeepsFragments` and the lemmas after it state its properties |
| SearchHitMapping.HighlightsOf | src/main/java/org/springframework/data/elasticsearch/core/SearchHitMapping.java:121-138 | defines `getHighlightsAndRemapFieldNames`; `HighlightsPassThrough` states its cases |
| SearchHitMapping.RemapKeepsFragments | src/main/java/org/springframework/data/elasticsearch/core/SearchHitMapping.java:134-137 | renaming fails exactly when two distinct keys get the same name; otherwise each key's fragments sit under its new name, and every new name comes from some key |
| SearchHitMapping.PropertyFieldRenamed | src/main/java/org/springframework/data/elasticsearch/core/SearchHitMapping.java:135-136 | a property's field name is renamed to the property's name |
| SearchHitMapping.DistinctFieldsDistinctNames | src/main/java/org/springframework/data/elasticsearch/core/SearchHitMapping.java:135-136 | in a well-formed entity, properties with different field names have different names |
| SearchHitMapping.NoRenameCollision | src/main/java/org/springframework/data/elasticsearch/core/SearchHitMapping.java:134-137 | highlight keys that are all field names of a well-formed entity cannot collide |
| SearchHitMapping.PropertyFragmentsRenamed | src/main/java/org/springframework/data/elasticsearch/core/SearchHitMapping.java:134-137 | without a collision, a property's fragments end up under the property's name |
| SearchHitMapping.RenamedKeyIsProperty | src/main/java/org/springframework/data/elasticsearch/core/SearchHitMapping.java:134-137 | when all keys are field names, every renamed key names a property whose field was highlighted |
| SearchHitMapping.RenamedKeySource | src/main/java/org/springframework/data/elasticsearch/core/SearchHitMapping.java:134-137 | every key of the renamed highlights comes from a highlighted field that renames to it |
| SearchHitMapping.HighlightsOfPropertiesRenamed | src/main/java/org/springframework/data/elasticsearch/core/SearchHitMapping.java:121-138 | highlights on field names of a well-formed entity are renamed without failure, each under its property's name with its own fragments |
| SearchHitMapping.RenamedHighlightsNameProperties | src/main/java/org/springframework/data/elasticsearch/core/SearchHitMapping.java:121-138 | every name in the renamed highlights is a property whose field was highlighted |
| SearchHitMapping.HighlightsPassThrough | src/main/java/org/springframework/data/elasticsearch/core/SearchHitMapping.java:121-138 | no highlights stay none; with no entity for the mapped type they are returned unchanged; otherwise they fail exactly when renaming fails |
| SearchHitMapping.ResolvedPath | src/main/java/org/springframework/data/elasticsearch/core/SearchHitMapping.java:239-251 | defines the walk of the `while` loop of `getPersistentEntity` as a recursion over the chain; `GetPersistentEntity` is proved equal to it |
| SearchHitMapping.Offsets | src/main/java/org/springframework/data/elasticsearch/core/SearchHitMapping.java:233-257 | a nested path has as many offsets as fields |
| SearchHitMapping.Chain | src/main/java/org/springframework/data/elasticsearch/core/SearchHitMapping.java:253-254 | chaining steps gives a nested path whose fields and offsets are the steps', in order |
| SearchHitMapping.Reversed | src/main/java/org/springframework/data/elasticsearch/core/SearchHitMapping.java:247-248 | the order in which inserting each step at the front of the list leaves the steps: element j is the j-th from the back |
| SearchHitMapping.FoldChain | src/main/java/org/springframework/data/elasticsearch/core/SearchHitMapping.java:253-254 | folding the front-inserted steps gives the chain of the steps in path order |
| SearchHitMapping.ReversedAppend | src/main/java/org/springframework/data/elasticsearch/core/SearchHitMapping.java:247-254 | reversing a sequence with one more element puts that element first |
| SearchHitMapping.ReversedTwice | src/main/java/org/springframework/data/elasticsearch/core/SearchHitMapping.java:247-254 | reversing twice gives back the sequence |
| SearchHitMapping.EntityWithNestedMetaDataOf | src/main/java/org/springframework/data/elasticsearch/core/SearchHitMapping.java:233-257 | defines the result of `getPersistentEntity`: the entity the walk reaches and the chain of mapped steps; `GetPersistentEntity` is proved equal to it and `NestedPathRenamed` and `NestedPathEdges` state its properties |
| SearchHitMapping.GetPersistentEntity | src/main/java/org/springframework/data/elasticsearch/core/SearchHitMapping.java:233-257 | the loop computes exactly the specified entity and mapped nested path |
| SearchHitMapping.NestedPathRenamed | src/main/java/org/springframework/data/elasticsearch/core/SearchHitMapping.java:233-257 | the mapped path keeps a prefix of the offsets, all of them when an entity is found; the entity found is the start or one of the context; field i of the result is the name of a property whose field name is input field i |
| SearchHitMapping.NestedPathOffsets | src/main/java/org/springframework/data/elasticsearch/core/SearchHitMapping.java:233-257 | the mapped path keeps a prefix of the offsets, all of them when an entity is found, and the entity found is the start or one of the context |
| SearchHitMapping.NestedPathFields | src/main/java/org/springframework/data/elasticsearch/core/SearchHitMapping.java:233-257 | the mapped path is no longer than the input, and its field i names a property whose field name is input field i |
| SearchHitMapping.NestedPathEdges | src/main/java/org/springframework/data/elasticsearch/core/SearchHitMapping.java:239-245 | no nested path keeps the entity with no path; a first field unknown to the entity gives neither entity nor path |
| SearchHitMapping.MapInnerDocuments | src/main/java/org/springframework/data/elasticsearch/core/SearchHitMapping.java:173-223 | the loop computes exactly the specified inner documents |
| SearchHitMapping.InnerDocumentsConverted | src/main/java/org/springframework/data/elasticsearch/core/SearchHitMapping.java:173-223 | totals, relation, score, scroll id, aggregations and count are kept; no hits stay as they are; hits are converted exactly when the first hit's path leads to an entity and every read succeeds; each converted hit holds its document read as that entity, the first hit's mapped path, its own inner hits and its document's id |
| SearchHitMapping.HitOf | src/main/java/org/springframework/data/elasticsearch/core/SearchHitMapping.java:103-119 | defines `mapHit`; `HitCopiesDocument` states what it copies and when it fails |
| SearchHitMapping.HitsFromResponse | src/main/java/org/springframework/data/elasticsearch/core/SearchHitMapping.java:77-101 | defines `mapHitsFromResponse`; `HitsFollowDocuments` states its properties |
| SearchHitMapping.InnerDocumentsOf | src/main/java/org/springframework/data/elasticsearch/core/SearchHitMapping.java:173-223 | defines `mapInnerDocuments`; `InnerDocumentsConverted` states its properties |
| SearchHitMapping.HitCopiesDocument | src/main/java/org/springframework/data/elasticsearch/core/SearchHitMapping.java:103-119 | a hit copies its document's index, id, routing, score, sort values, nested path, explanation and matched queries and holds the content; it fails exactly when highlights or inner hits fail; no inner hits give an empty map |
| SearchHitMapping.HitListPrefixFailure | src/main/java/org/springframework/data/elasticsearch/core/SearchHitMapping.java:89-96 | once a prefix of hits fails, the whole list fails the same way |
| SearchHitMapping.HitListCharacterized | src/main/java/org/springframework/data/elasticsearch/core/SearchHitMapping.java:89-96 | the hits succeed exactly when each document maps; hit i is the hit of document i; on failure the error is the first failing document's |
| SearchHitMapping.HitsFollowDocuments | src/main/java/org/springframework/data/elasticsearch/core/SearchHitMapping.java:77-101 | a count mismatch fails; otherwise it succeeds exactly when each hit maps and the relation is known; totals, score, scroll id and aggregations are copied; hit i holds content i and document i's id |
| SearchHitMapping.MapHitsFromResponse | src/main/java/org/springframework/data/elasticsearch/core/SearchHitMapping.java:77-101 | the loop computes exactly the specified search hits |
| SearchHitMapping.InnerEntriesPrefixFailure | src/main/java/org/springframework/data/elasticsearch/core/SearchHitMapping.java:150-161 | once a prefix of inner-hit entries fails, all of them fail the same way |
| SearchHitMapping.InnerHitsOf | src/main/java/org/springframework/data/elasticsearch/core/SearchHitMapping.java:140-164 | defines `mapInnerHits`: no inner hits give an empty map, else each entry's response mapped and converted; `MapInnerHits` is proved equal to it and `InnerHitsByName` states its keys and values |
| SearchHitMapping.MapInnerHits | src/main/java/org/springframework/data/elasticsearch/core/SearchHitMapping.java:140-164 | the loop computes exactly the specified inner hits |
| SearchHitMapping.InnerHitsByName | src/main/java/org/springframework/data/elasticsearch/core/SearchHitMapping.java:140-164 | the inner hits are keyed by exactly the entry names; the last entry of a name holds its response mapped to hits and converted |
| SearchHitMapping.InnerHitsKeys | src/main/java/org/springframework/data/elasticsearch/core/SearchHitMapping.java:140-164 | the inner hits are keyed by exactly the names of the entries |
| SearchHitMapping.InnerHitsLastEntry | src/main/java/org/springframework/data/elasticsearch/core/SearchHitMapping.java:140-164 | the last entry of a name holds its response mapped to hits and converted |

## Left out

- Validation by the Elasticsearch library is not modelled: negative `from`/`size`, the exception for a stored script that has a language, and the null-pointer exception for an inline script without a language. `ScriptOf` and `UpdateScriptOf` build such an inline script with no language when the update query gives none.
- The assertions on empty index names or aliases are not modelled. Index coordinates always have at least one name, and the first name is the index name.
- `getQueryRescorerBuilder` passing a null query builder to the library is not modelled. The assertion at RequestFactory.java:1246 tests a string literal and can never fire.
- The null-pointer exception for a null search type is not modelled. The search type is a plain enum value here.
- The builder variants for the transport client (`SearchRequestBuilder`, `UpdateRequestBuilder` and the rest) are not modelled. They repeat the request variants modelled here.
- Converter calls are not modelled: `mapObject`, the criteria processors and `updateQuery`. A mapped object, a criteria query and a converted document are opaque values. `updateQuery` rewrites the query in place before it is translated (RequestFactory.java:180, 675 and 900). The translation functions take the query as it stands after that call: their contracts speak of the query's fields, source filter and sorts as `updateQuery` left them, and what `updateQuery` changes is not part of this model. `read` is modelled only by whether it throws, through the converter's set of failing (type, document) pairs.
- Floating-point values are modelled as `real`: scores, weights and requests per second. Rounding is not modelled.
- Parsing of `TimeValue` and `ActiveShardCount` is not modelled. Timeouts and shard counts are passed through as given.
- The translation of indices options to the library's enum sets is not modelled. The options are passed through unchanged.
- Logging is not modelled, including the warning when inner documents cannot be read.
- The order of the inner-hits `LinkedHashMap` is not modelled: inner hits are a Dafny map. `InnerHitsByName` states which entry a name holds.
- The id of a converted inner hit is modelled as the document's optional id. What `getId()` does for a document without an id is not modelled.
- `Query.DEFAULT_PAGE` is modelled as an unsorted page 0 of size 10. The interface that declares it is not part of this model.
- SearchRequests.SortBuilderOf: the distance type, unit, sort mode and ignore-unmapped flag of a geo-distance sort are not modelled; only its field, point and order are.
- SearchHitMapping.RemapFieldNames: the duplicate-key exception from `Collectors.toMap` is an error without the key it names.
- SearchRequests.SortBuildersOf: translates each order with the corrected `SortBuilderOf`. A descending geo-distance order therefore gets `Some(Desc)`, where the code as written sets no order and the library's ascending default applies. `CorrectionOnlyAddsGeoDirection` states that this direction is the only difference.
- SearchRequests.SortsOf: the translated orders carry the corrected geo-distance direction, as for `SortBuildersOf`.
- SearchRequests.SortsOrdered: states the layout of the corrected sorts, so a descending geo-distance order is sorted descending here.
- SearchRequests.AddSortBuilders: appends the corrected builders, as for `SortBuildersOf`.
- SearchRequests.PrepareSort: adds the corrected sorts, as for `SortBuildersOf`.
- SearchRequests.ApplySortsAndHighlights: sets the corrected sorts, as for `SortBuildersOf`.
- SearchRequests.PreparedSource: the decorated source carries the corrected sorts, as for `SortBuildersOf`.
- SearchRequests.PreparedSearch: the specified request carries the corrected geo-distance direction. It differs from RequestFactory.java:932-1024 as written exactly on geo-distance orders, as for `SortBuildersOf`.
- SearchRequests.PrepareSearchRequest: builds the request with the corrected geo-distance direction. It differs from RequestFactory.java:932-1024 as written exactly on geo-distance orders, as for `SortBuildersOf`.
- SearchRequests.NativeOnlyParts: its sorts clause states the corrected sorts, as for `SortBuildersOf`.
- SearchRequests.SearchRequestOf: the search request carries the corrected sorts, as for `SortBuildersOf`.
- SearchRequests.DeleteByQueryRequestOf: built on `SearchRequestOf`, with the corrected sorts. Its own fields do not depend on the sorts.
- Query.AbstractQuery.SetFields: Java clears the query's own list and then refills it from the argument. `getFields()` returns that same list, so `setFields(getFields())` leaves the Java query with no fields. The model's argument is a value, so this aliasing is not captured, and the contract keeps the fields in that case.
- Query.AbstractQuery.SetRescorerQueriesAsWritten: the same clear-then-refill aliasing as `SetFields`. `setRescorerQueries(getRescorerQueries())` empties the Java list, while the contract keeps it.
- Query.AbstractQuery.SetRescorerQueries: the same aliasing as `SetRescorerQueriesAsWritten`, which the corrected check on the argument does not change.
- SearchRequests.HighlighterOf: `highlightBuilder` adds the native query's highlight fields to the query's own `HighlightBuilder` object (RequestFactory.java:821-829). Translating the query therefore changes it, and translating it twice adds the fields twice. The model returns a new highlighter value and leaves the query unchanged.
- FactoryHelpers.LowerCase: maps ASCII letters only. Java's `toLowerCase()` at RequestFactory.java:981 and 1686 follows the default locale, which is not modelled; the names it lowers are ASCII enum names.
- Entity and property metadata come from annotations and are not derived: a well-formed entity is one whose field names and property names are distinct.

## Findings

| source | as written | input that shows it | evidently intended | confidence | as-written member | corrected member |
|---|---|---|---|---|---|---|
| src/main/java/org/springframework/data/elasticsearch/core/query/AbstractQuery.java:317-323 | `setRescorerQueries` asserts that the field `rescorerQueries` is non-null, not the argument. The field is never null, so a null list passes the check, empties the current rescorers, then throws a null-pointer exception from `addAll`. | A query holding one rescorer, given `setRescorerQueries(null)`: it is left with no rescorers and the call throws. | Reject a null argument with "rescorerQueries must not be null" before touching the list. | not executed; read from the source | Query.AbstractQuery.SetRescorerQueriesAsWritten, Query.RescorerLostOnNull | Query.AbstractQuery.SetRescorerQueries, Query.RescorerKeptOnNull |
| src/main/java/org/springframework/data/elasticsearch/core/RequestFactory.java:1217-1227 | `getSortBuilder` computes the order's direction but never applies it to a geo-distance sort. The library default applies. | A `GeoDistanceOrder` with direction DESC: the sort builder has no order set. | Set `.order(sortOrder)` on geo-distance sorts as on field and score sorts. | not executed; read from the source | SearchRequests.SortBuilderAsWritten, SearchRequests.GeoSortDirectionLost | SearchRequests.SortBuilderOf, SearchRequests.SortDirectionAlwaysApplied |
