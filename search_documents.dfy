/** What a search returns before it is mapped to the caller's types (search
    documents and the response that holds them) and what the mapping
    produces (search hits). */
module SearchDocuments {
  import opened Wrappers
  import opened Elastic
  import opened Metadata

  /** Where an inner hit sits inside its parent document: the field of the
      nested object, the offset in that field's list, and, for nesting
      deeper down, the position inside that object. */
  datatype NestedMetaData = NestedMetaData(field: string, offset: int, child: Option<NestedMetaData>)

  /** A document of a search response. `innerHits` lists the inner-hit
      responses by name in the order the map yields them (a document
      without inner hits has none listed); `source` stands for the
      document's field values. */
  datatype SearchDocument = SearchDocument(
    index: string,
    id: Option<string>,
    routing: Option<string>,
    score: real,
    sortValues: seq<Value>,
    highlightFields: Option<map<string, seq<string>>>,
    innerHits: seq<(string, SearchDocumentResponse)>,
    nestedMetaData: Option<NestedMetaData>,
    explanation: Option<Explanation>,
    matchedQueries: seq<string>,
    source: nat)

  /** A search response: totals, the relation as the engine names it, and the documents. */
  datatype SearchDocumentResponse = SearchDocumentResponse(
    totalHits: int,
    totalHitsRelation: string,
    maxScore: real,
    scrollId: Option<string>,
    searchDocuments: seq<SearchDocument>,
    aggregations: Option<Aggregations>)

  datatype TotalHitsRelation = EqualTo | GreaterThanOrEqualTo | Off

  /** What an inner hit holds: the search document itself, or the object the
      converter read from it as an instance of the named entity type. */
  datatype Content = DocumentContent(document: SearchDocument) | ReadObject(targetType: string, document: SearchDocument)

  /** A search hit; inner hits hold the mapped inner-hit responses by name. */
  datatype SearchHit<T> = SearchHit(
    index: string,
    id: Option<string>,
    routing: Option<string>,
    score: real,
    sortValues: seq<Value>,
    highlightFields: Option<map<string, seq<string>>>,
    innerHits: map<string, SearchHits<Content>>,
    nestedMetaData: Option<NestedMetaData>,
    explanation: Option<Explanation>,
    matchedQueries: seq<string>,
    content: T)

  datatype SearchHits<T> = SearchHits(
    totalHits: int,
    totalHitsRelation: TotalHitsRelation,
    maxScore: real,
    scrollId: Option<string>,
    hits: seq<SearchHit<T>>,
    aggregations: Option<Aggregations>)

  /** The converter as the mapping sees it: its mapping context, and the
      (target type, document) pairs whose reading throws. */
  datatype Converter = Converter(ctx: MappingContext, readFailures: set<(string, SearchDocument)>)

  /** `SearchHitMapping.mappingFor(type, converter)` */
  datatype Mapping = Mapping(typeName: string, converter: Converter)

  /** The type name inner hits are first mapped to. */
  const SearchDocumentType := "SearchDocument"

  /** The exceptions the mapping lets through. */
  datatype MappingError =
    | CountMismatch
    | DuplicateHighlightKey
    | UnknownTotalHitsRelation(name: string)
}
