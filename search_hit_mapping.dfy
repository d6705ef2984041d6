/** The search hit mapping: a search response and the objects read from its
    documents become search hits; highlight field names are renamed to
    property names; inner hits are mapped and, where the nested path
    resolves to an entity, read into objects of that entity type. */
module SearchHitMapping {
  import opened Wrappers
  import opened Elastic
  import opened Metadata
  import opened SearchDocuments

  // ---------------------------------------------------------------------
  // Total hits relation
  // ---------------------------------------------------------------------

  /** The name of a relation constant. */
  function RelationName(relation: TotalHitsRelation): string {
    match relation
    case EqualTo => "EQUAL_TO"
    case GreaterThanOrEqualTo => "GREATER_THAN_OR_EQUAL_TO"
    case Off => "OFF"
  }

  /** `TotalHitsRelation.valueOf(name)`: the constant with that name, or an error for any other name. */
  function RelationOf(name: string): (r: Result<TotalHitsRelation, MappingError>)
    ensures r.Success? <==> name in {"EQUAL_TO", "GREATER_THAN_OR_EQUAL_TO", "OFF"}
    ensures r.Success? ==> RelationName(r.value) == name
    ensures r.Failure? ==> r.error == UnknownTotalHitsRelation(name)
  {
    if name == "EQUAL_TO" then Success(EqualTo)
    else if name == "GREATER_THAN_OR_EQUAL_TO" then Success(GreaterThanOrEqualTo)
    else if name == "OFF" then Success(Off)
    else Failure(UnknownTotalHitsRelation(name))
  }

  /** Every relation is read back from its own name. */
  lemma RelationNameRoundTrip(relation: TotalHitsRelation)
    ensures RelationOf(RelationName(relation)) == Success(relation)
  {
  }

  // ---------------------------------------------------------------------
  // Highlight field names
  // ---------------------------------------------------------------------

  /** The name a highlight key gets: the name of the property stored under
      that field name, or the key itself when no property is. */
  function FieldToPropertyName(e: Entity, key: string): string {
    match PropertyWithFieldName(e.properties, key)
    case Some(p) => p.name
    case None => key
  }

  /** Two highlight keys would get the same name. */
  predicate RenamesCollide(e: Entity, highlights: map<string, seq<string>>) {
    exists k1 | k1 in highlights :: exists k2 | k2 in highlights ::
      k1 != k2 && FieldToPropertyName(e, k1) == FieldToPropertyName(e, k2)
  }

  /** The highlight map re-keyed by property name; collecting two entries
      under one key throws. */
  function RemapFieldNames(e: Entity, highlights: map<string, seq<string>>): Result<map<string, seq<string>>, MappingError> {
    if RenamesCollide(e, highlights) then Failure(DuplicateHighlightKey)
    else Success(map k | k in highlights :: FieldToPropertyName(e, k) := highlights[k])
  }

  /** `getHighlightsAndRemapFieldNames`: absent highlights stay absent; without
      an entity for the mapped type they are kept as they are. */
  function HighlightsOf(m: Mapping, doc: SearchDocument): Result<Option<map<string, seq<string>>>, MappingError> {
    if doc.highlightFields.None? then Success(None)
    else
      match PersistentEntity(m.converter.ctx, m.typeName)
      case None => Success(doc.highlightFields)
      case Some(e) =>
        var renamed :- RemapFieldNames(e, doc.highlightFields.value);
        Success(Some(renamed))
  }

  /** Renaming keeps every fragment list: each key's list ends up under the
      key's new name, and nothing else is in the result; it fails exactly
      when two keys get the same name. */
  lemma RemapKeepsFragments(e: Entity, highlights: map<string, seq<string>>)
    ensures RemapFieldNames(e, highlights).Failure? <==>
      (exists k1, k2 :: k1 in highlights && k2 in highlights && k1 != k2 &&
        FieldToPropertyName(e, k1) == FieldToPropertyName(e, k2))
    ensures RemapFieldNames(e, highlights).Success? ==>
      var r := RemapFieldNames(e, highlights).value;
      (forall k :: k in highlights ==> FieldToPropertyName(e, k) in r && r[FieldToPropertyName(e, k)] == highlights[k]) &&
      (forall n :: n in r ==> exists k :: k in highlights && FieldToPropertyName(e, k) == n)
  {
    if RemapFieldNames(e, highlights).Success? {
      var r := RemapFieldNames(e, highlights).value;
      forall n | n in r
        ensures exists k :: k in highlights && FieldToPropertyName(e, k) == n
      {
      }
    }
  }

  /** In a well-formed entity a property's field name is renamed to its name. */
  lemma PropertyFieldRenamed(e: Entity, p: Property)
    requires WellFormed(e) && p in e.properties
    ensures FieldToPropertyName(e, p.fieldName) == p.name
  {
    FieldNameLookupUnique(e.properties, p);
  }

  /** In a well-formed entity properties with different field names have different names. */
  lemma DistinctFieldsDistinctNames(e: Entity, p1: Property, p2: Property)
    requires WellFormed(e) && p1 in e.properties && p2 in e.properties
    requires p1.fieldName != p2.fieldName
    ensures p1.name != p2.name
  {
    var i :| 0 <= i < |e.properties| && e.properties[i] == p1;
    var j :| 0 <= j < |e.properties| && e.properties[j] == p2;
    if i < j {
      assert e.properties[i].name != e.properties[j].name;
    } else if j < i {
      assert e.properties[j].name != e.properties[i].name;
    }
  }

  /** Highlight keys that are field names of a well-formed entity get distinct names. */
  lemma NoRenameCollision(e: Entity, highlights: map<string, seq<string>>)
    requires WellFormed(e)
    requires forall k :: k in highlights ==> PropertyWithFieldName(e.properties, k).Some?
    ensures !RenamesCollide(e, highlights)
  {
    forall k1, k2 | k1 in highlights && k2 in highlights && k1 != k2
      ensures FieldToPropertyName(e, k1) != FieldToPropertyName(e, k2)
    {
      var p1 := PropertyWithFieldName(e.properties, k1).value;
      var p2 := PropertyWithFieldName(e.properties, k2).value;
      DistinctFieldsDistinctNames(e, p1, p2);
    }
  }

  /** The fragments of a property's field end up under the property's name. */
  lemma PropertyFragmentsRenamed(e: Entity, highlights: map<string, seq<string>>, p: Property)
    requires WellFormed(e) && p in e.properties && p.fieldName in highlights
    requires !RenamesCollide(e, highlights)
    ensures RemapFieldNames(e, highlights).Success?
    ensures p.name in RemapFieldNames(e, highlights).value
    ensures RemapFieldNames(e, highlights).value[p.name] == highlights[p.fieldName]
  {
    PropertyFieldRenamed(e, p);
    var r := map k | k in highlights :: FieldToPropertyName(e, k) := highlights[k];
    assert FieldToPropertyName(e, p.fieldName) in r;
  }

  /** A name in the renamed highlights is the name of a property whose field was highlighted. */
  lemma RenamedKeyIsProperty(e: Entity, highlights: map<string, seq<string>>, n: string)
    requires WellFormed(e)
    requires forall k :: k in highlights ==> PropertyWithFieldName(e.properties, k).Some?
    requires !RenamesCollide(e, highlights)
    requires n in RemapFieldNames(e, highlights).value
    ensures PropertyNamed(e.properties, n).Some? && PropertyNamed(e.properties, n).value.fieldName in highlights
  {
    var k := RenamedKeySource(e, highlights, n);
    var p := PropertyWithFieldName(e.properties, k).value;
    assert p in e.properties && p.fieldName == k;
    assert n == p.name;
    NameLookupUnique(e.properties, p);
  }

  /** A name in the renamed highlights comes from some highlight key. */
  lemma RenamedKeySource(e: Entity, highlights: map<string, seq<string>>, n: string) returns (k: string)
    requires RemapFieldNames(e, highlights).Success?
    requires n in RemapFieldNames(e, highlights).value
    ensures k in highlights && FieldToPropertyName(e, k) == n
  {
    var r := map k | k in highlights :: FieldToPropertyName(e, k) := highlights[k];
    assert n in r;
    k :| k in highlights && FieldToPropertyName(e, k) == n;
  }

  /** For a well-formed entity and highlights on its fields only, the renaming
      never fails, and the fragments of each property's field are found
      under the property's name: the inverse of the name-to-field mapping
      sorting uses. */
  lemma HighlightsOfPropertiesRenamed(e: Entity, highlights: map<string, seq<string>>)
    requires WellFormed(e)
    requires forall k :: k in highlights ==> PropertyWithFieldName(e.properties, k).Some?
    ensures RemapFieldNames(e, highlights).Success?
    ensures forall p :: p in e.properties && p.fieldName in highlights ==>
      p.name in RemapFieldNames(e, highlights).value &&
      RemapFieldNames(e, highlights).value[p.name] == highlights[p.fieldName]
  {
    NoRenameCollision(e, highlights);
    forall p | p in e.properties && p.fieldName in highlights
      ensures p.name in RemapFieldNames(e, highlights).value &&
        RemapFieldNames(e, highlights).value[p.name] == highlights[p.fieldName]
    {
      PropertyFragmentsRenamed(e, highlights, p);
    }
  }

  /** For a well-formed entity and highlights on its fields only, every name
      in the renamed highlights is the name of a property whose field was
      highlighted. */
  lemma RenamedHighlightsNameProperties(e: Entity, highlights: map<string, seq<string>>)
    requires WellFormed(e)
    requires forall k :: k in highlights ==> PropertyWithFieldName(e.properties, k).Some?
    ensures RemapFieldNames(e, highlights).Success?
    ensures forall n :: n in RemapFieldNames(e, highlights).value ==>
      PropertyNamed(e.properties, n).Some? && PropertyNamed(e.properties, n).value.fieldName in highlights
  {
    NoRenameCollision(e, highlights);
    forall n | n in RemapFieldNames(e, highlights).value
      ensures PropertyNamed(e.properties, n).Some? && PropertyNamed(e.properties, n).value.fieldName in highlights
    {
      RenamedKeyIsProperty(e, highlights, n);
    }
  }

  /** Highlights: absent ones stay absent, and without an entity for the
      mapped type they are passed on unchanged. */
  lemma HighlightsPassThrough(m: Mapping, doc: SearchDocument)
    ensures doc.highlightFields.None? ==> HighlightsOf(m, doc) == Success(None)
    ensures m.typeName !in m.converter.ctx ==> HighlightsOf(m, doc) == Success(doc.highlightFields)
    ensures doc.highlightFields.Some? && m.typeName in m.converter.ctx ==>
      HighlightsOf(m, doc).Success? == RemapFieldNames(m.converter.ctx[m.typeName], doc.highlightFields.value).Success?
  {
  }

  // ---------------------------------------------------------------------
  // Nested path: entity and mapped nested metadata
  // ---------------------------------------------------------------------

  /** `ElasticsearchPersistentEntityWithNestedMetaData` */
  datatype EntityWithNestedMetaData = EntityWithNestedMetaData(entity: Option<Entity>, nestedMetaData: Option<NestedMetaData>)

  /** The field names along a nested metadata chain, outermost first. */
  function Fields(n: Option<NestedMetaData>): (r: seq<string>)
    decreases n
  {
    if n.None? then [] else [n.value.field] + Fields(n.value.child)
  }

  /** The offsets along a nested metadata chain, outermost first. */
  function Offsets(n: Option<NestedMetaData>): (r: seq<int>)
    ensures |r| == |Fields(n)|
    decreases n
  {
    if n.None? then [] else [n.value.offset] + Offsets(n.value.child)
  }

  /** Following the chain from `entity`: each level whose field names a
      property becomes one step carrying the property's name and the
      level's offset, and the walk moves on to the property's entity; it
      stops at the chain's end, at an entity-less property type, or at an
      unknown field, which leaves no entity. */
  function ResolvedPath(ctx: MappingContext, entity: Option<Entity>, current: Option<NestedMetaData>): (Option<Entity>, seq<NestedMetaData>)
    decreases current
  {
    if entity.None? || current.None? then (entity, [])
    else
      match PropertyWithFieldName(entity.value.properties, current.value.field)
      case None => (None, [])
      case Some(p) =>
        var rest := ResolvedPath(ctx, PersistentEntity(ctx, p.actualType), current.value.child);
        (rest.0, [NestedMetaData(p.name, current.value.offset, None)] + rest.1)
  }

  /** The steps linked into one chain, the first step outermost. */
  function Chain(steps: seq<NestedMetaData>): (r: Option<NestedMetaData>)
    ensures Fields(r) == seq(|steps|, i requires 0 <= i < |steps| => steps[i].field)
    ensures Offsets(r) == seq(|steps|, i requires 0 <= i < |steps| => steps[i].offset)
  {
    if steps == [] then None
    else Some(NestedMetaData(steps[0].field, steps[0].offset, Chain(steps[1..])))
  }

  /** `getPersistentEntity(entity, nestedMetaData)` */
  function EntityWithNestedMetaDataOf(ctx: MappingContext, entity: Option<Entity>, nested: Option<NestedMetaData>): EntityWithNestedMetaData {
    var path := ResolvedPath(ctx, entity, nested);
    EntityWithNestedMetaData(path.0, Chain(path.1))
  }

  /** A sequence in reverse order: element j is the j-th from the back. */
  function Reversed<T>(s: seq<T>): (r: seq<T>)
    ensures |r| == |s|
    ensures forall j :: 0 <= j < |s| ==> r[j] == s[|s| - 1 - j]
  {
    seq(|s|, j requires 0 <= j < |s| => s[|s| - 1 - j])
  }

  /** Appending at the back is prepending to the reversal. */
  lemma ReversedAppend<T>(s: seq<T>, x: T)
    ensures Reversed(s + [x]) == [x] + Reversed(s)
  {
  }

  /** Reversing twice gives the sequence back. */
  lemma ReversedTwice<T>(s: seq<T>)
    ensures Reversed(Reversed(s)) == s
  {
  }

  /** Folds a list of levels, innermost first, into one chain, each element
      becoming the parent of the chain folded so far. */
  method FoldChain(mapped: seq<NestedMetaData>) returns (result: Option<NestedMetaData>)
    ensures result == Chain(Reversed(mapped))
  {
    ghost var steps := Reversed(mapped);
    result := None;
    var i := 0;
    while i < |mapped|
      invariant 0 <= i <= |mapped|
      invariant result == Chain(steps[|steps| - i..])
    {
      assert steps[|steps| - i - 1..][1..] == steps[|steps| - i..];
      assert steps[|steps| - i - 1] == mapped[i];
      result := Some(NestedMetaData(mapped[i].field, mapped[i].offset, result));
      i := i + 1;
    }
  }

  /** `getPersistentEntity`: walks the chain, collecting the renamed levels at
      the front of a list, then folds the list back into a chain. */
  method GetPersistentEntity(ctx: MappingContext, entity: Option<Entity>, nested: Option<NestedMetaData>)
    returns (r: EntityWithNestedMetaData)
    ensures r == EntityWithNestedMetaDataOf(ctx, entity, nested)
  {
    var persistentEntity := entity;
    var currentMetaData := nested;
    var mapped: seq<NestedMetaData> := [];
    ghost var steps: seq<NestedMetaData> := [];
    assert steps + ResolvedPath(ctx, entity, nested).1 == ResolvedPath(ctx, entity, nested).1;
    while persistentEntity.Some? && currentMetaData.Some?
      invariant ResolvedPath(ctx, entity, nested) ==
        (ResolvedPath(ctx, persistentEntity, currentMetaData).0, steps + ResolvedPath(ctx, persistentEntity, currentMetaData).1)
      invariant mapped == Reversed(steps)
      decreases currentMetaData, if persistentEntity.Some? then 1 else 0
    {
      var property := PropertyWithFieldName(persistentEntity.value.properties, currentMetaData.value.field);
      if property.None? {
        persistentEntity := None;
      } else {
        var step := NestedMetaData(property.value.name, currentMetaData.value.offset, None);
        ghost var rest := ResolvedPath(ctx, PersistentEntity(ctx, property.value.actualType), currentMetaData.value.child);
        assert ResolvedPath(ctx, persistentEntity, currentMetaData) == (rest.0, [step] + rest.1);
        assert (steps + [step]) + rest.1 == steps + ([step] + rest.1);
        ReversedAppend(steps, step);
        persistentEntity := PersistentEntity(ctx, property.value.actualType);
        mapped := [step] + mapped;
        steps := steps + [step];
        currentMetaData := currentMetaData.value.child;
      }
    }
    assert ResolvedPath(ctx, persistentEntity, currentMetaData).1 == [];
    assert steps + [] == steps;
    var result := FoldChain(mapped);
    ReversedTwice(steps);
    r := EntityWithNestedMetaData(persistentEntity, result);
  }

  /** The mapped chain keeps the offsets of the levels it resolved, in order,
      and names at each level a property stored under that level's field
      name, of the starting entity or of an entity of the context; when an
      entity is found, every level was resolved and the entity is one the
      walk reached. */
  lemma NestedPathRenamed(ctx: MappingContext, entity: Option<Entity>, nested: Option<NestedMetaData>)
    ensures var r := EntityWithNestedMetaDataOf(ctx, entity, nested);
      |Offsets(r.nestedMetaData)| <= |Offsets(nested)| &&
      Offsets(r.nestedMetaData) == Offsets(nested)[..|Offsets(r.nestedMetaData)|] &&
      (r.entity.Some? ==> Offsets(r.nestedMetaData) == Offsets(nested)) &&
      (r.entity.Some? ==> r.entity == entity || r.entity.value in ctx.Values)
    ensures var r := EntityWithNestedMetaDataOf(ctx, entity, nested);
      forall i :: 0 <= i < |Fields(r.nestedMetaData)| ==>
        exists e, p :: ((Some(e) == entity || e in ctx.Values) && p in e.properties &&
          p.name == Fields(r.nestedMetaData)[i] && p.fieldName == Fields(nested)[i])
  {
    NestedPathOffsets(ctx, entity, nested);
    NestedPathFields(ctx, entity, nested);
  }

  /** The mapped chain keeps a prefix of the offsets, all of them when an
      entity is found, and the entity found is the start or one of the context. */
  lemma {:induction false} NestedPathOffsets(ctx: MappingContext, entity: Option<Entity>, nested: Option<NestedMetaData>)
    ensures var r := EntityWithNestedMetaDataOf(ctx, entity, nested);
      |Offsets(r.nestedMetaData)| <= |Offsets(nested)| &&
      Offsets(r.nestedMetaData) == Offsets(nested)[..|Offsets(r.nestedMetaData)|] &&
      (r.entity.Some? ==> Offsets(r.nestedMetaData) == Offsets(nested)) &&
      (r.entity.Some? ==> r.entity == entity || r.entity.value in ctx.Values)
    decreases nested
  {
    var path := ResolvedPath(ctx, entity, nested);
    var r := EntityWithNestedMetaDataOf(ctx, entity, nested);
    if entity.Some? && nested.Some? {
      match PropertyWithFieldName(entity.value.properties, nested.value.field)
      case None =>
      case Some(p) =>
        var next := PersistentEntity(ctx, p.actualType);
        var child := nested.value.child;
        NestedPathOffsets(ctx, next, child);
        var rest := ResolvedPath(ctx, next, child);
        assert path.1 == [NestedMetaData(p.name, nested.value.offset, None)] + rest.1;
        assert Offsets(r.nestedMetaData) == [nested.value.offset] + Offsets(Chain(rest.1));
        assert Offsets(nested) == [nested.value.offset] + Offsets(child);
    }
  }

  /** Field i of the mapped chain is the name of a property, of the starting
      entity or of one of the context, stored under input field i. */
  lemma {:induction false} NestedPathFields(ctx: MappingContext, entity: Option<Entity>, nested: Option<NestedMetaData>)
    ensures |Fields(EntityWithNestedMetaDataOf(ctx, entity, nested).nestedMetaData)| <= |Fields(nested)|
    ensures var r := EntityWithNestedMetaDataOf(ctx, entity, nested);
      forall i :: 0 <= i < |Fields(r.nestedMetaData)| ==>
        exists e, p :: ((Some(e) == entity || e in ctx.Values) && p in e.properties &&
          p.name == Fields(r.nestedMetaData)[i] && p.fieldName == Fields(nested)[i])
    decreases nested
  {
    NestedPathOffsets(ctx, entity, nested);
    var path := ResolvedPath(ctx, entity, nested);
    var r := EntityWithNestedMetaDataOf(ctx, entity, nested);
    if entity.Some? && nested.Some? {
      match PropertyWithFieldName(entity.value.properties, nested.value.field)
      case None =>
      case Some(p) =>
        var next := PersistentEntity(ctx, p.actualType);
        var child := nested.value.child;
        NestedPathFields(ctx, next, child);
        var rest := ResolvedPath(ctx, next, child);
        assert path.1 == [NestedMetaData(p.name, nested.value.offset, None)] + rest.1;
        assert Fields(r.nestedMetaData) == [p.name] + Fields(Chain(rest.1));
        assert Fields(nested) == [nested.value.field] + Fields(child);
        forall i | 0 <= i < |Fields(r.nestedMetaData)|
          ensures exists e, q :: ((Some(e) == entity || e in ctx.Values) && q in e.properties &&
            q.name == Fields(r.nestedMetaData)[i] && q.fieldName == Fields(nested)[i])
        {
          if i == 0 {
            assert Some(entity.value) == entity && p in entity.value.properties;
          } else {
            assert Fields(r.nestedMetaData)[i] == Fields(Chain(rest.1))[i - 1];
            assert Fields(nested)[i] == Fields(child)[i - 1];
            var e, q :| (Some(e) == next || e in ctx.Values) && q in e.properties &&
              q.name == Fields(Chain(rest.1))[i - 1] && q.fieldName == Fields(child)[i - 1];
            assert e in ctx.Values;
          }
        }
    }
  }

  /** A level whose field names no property of the entity leaves neither an
      entity nor mapped metadata; without metadata the entity is kept. */
  lemma NestedPathEdges(ctx: MappingContext, entity: Option<Entity>, nested: Option<NestedMetaData>)
    ensures nested.None? ==> EntityWithNestedMetaDataOf(ctx, entity, nested) == EntityWithNestedMetaData(entity, None)
    ensures (entity.Some? && nested.Some? &&
             (forall p :: p in entity.value.properties ==> p.fieldName != nested.value.field)) ==>
      EntityWithNestedMetaDataOf(ctx, entity, nested) == EntityWithNestedMetaData(None, None)
  {
  }

  // ---------------------------------------------------------------------
  // Hits
  // ---------------------------------------------------------------------

  /** The mapping inner hits are first mapped with: to search documents. */
  function InnerMapping(m: Mapping): Mapping {
    Mapping(SearchDocumentType, m.converter)
  }

  /** `mapHit`: the hit of one document with its content. */
  function HitOf<T>(m: Mapping, doc: SearchDocument, content: T): Result<SearchHit<T>, MappingError>
    decreases doc, 1
  {
    var highlights :- HighlightsOf(m, doc);
    var innerHits :- InnerHitsOf(m, doc);
    Success(SearchHit(doc.index, doc.id, doc.routing, doc.score, doc.sortValues, highlights, innerHits,
                      doc.nestedMetaData, doc.explanation, doc.matchedQueries, content))
  }

  /** `mapInnerHits`: each inner-hit response mapped by name. */
  function InnerHitsOf(m: Mapping, doc: SearchDocument): Result<map<string, SearchHits<Content>>, MappingError>
    decreases doc, 0
  {
    InnerEntriesOf(m, doc, |doc.innerHits|)
  }

  /** The first `n` inner-hit entries, put into the map in order. */
  function InnerEntriesOf(m: Mapping, doc: SearchDocument, n: nat): Result<map<string, SearchHits<Content>>, MappingError>
    requires n <= |doc.innerHits|
    decreases doc, 0, n
  {
    if n == 0 then Success(map[])
    else
      var init :- InnerEntriesOf(m, doc, n - 1);
      var entry := doc.innerHits[n - 1];
      var hits :- InnerResponseHits(m, entry.1);
      Success(init[entry.0 := hits])
  }

  /** One inner-hit response: mapped to hits of its own documents, then
      converted to objects of the inner entity type where that succeeds. */
  function InnerResponseHits(m: Mapping, response: SearchDocumentResponse): Result<SearchHits<Content>, MappingError>
    decreases response, 2
  {
    var hits :- HitsFromResponse(InnerMapping(m), response, response.searchDocuments);
    Success(InnerDocumentsOf(m, hits))
  }

  /** `mapHitsFromResponse`: one hit per document and content, and the
      response's totals. */
  function HitsFromResponse<T>(m: Mapping, response: SearchDocumentResponse, contents: seq<T>): Result<SearchHits<T>, MappingError>
    decreases response, 1
  {
    if |response.searchDocuments| != |contents| then Failure(CountMismatch)
    else
      var hits :- HitList(m, response, contents, |contents|);
      var relation :- RelationOf(response.totalHitsRelation);
      Success(SearchHits(response.totalHits, relation, response.maxScore, response.scrollId, hits, response.aggregations))
  }

  /** The hits of the first `n` documents. */
  function HitList<T>(m: Mapping, response: SearchDocumentResponse, contents: seq<T>, n: nat): Result<seq<SearchHit<T>>, MappingError>
    requires |response.searchDocuments| == |contents| && n <= |contents|
    decreases response, 0, n
  {
    if n == 0 then Success([])
    else
      var init :- HitList(m, response, contents, n - 1);
      var hit :- HitOf(m, response.searchDocuments[n - 1], contents[n - 1]);
      Success(init + [hit])
  }

  /** A hit keeps its content. */
  function WithContent<T, U>(hit: SearchHit<T>, content: U): SearchHit<U> {
    SearchHit(hit.index, hit.id, hit.routing, hit.score, hit.sortValues, hit.highlightFields, hit.innerHits,
              hit.nestedMetaData, hit.explanation, hit.matchedQueries, content)
  }

  /** The hits of search documents, unchanged, seen as inner-hit content. */
  function AsContent(hits: SearchHits<SearchDocument>): SearchHits<Content> {
    SearchHits(hits.totalHits, hits.totalHitsRelation, hits.maxScore, hits.scrollId,
               seq(|hits.hits|, i requires 0 <= i < |hits.hits| => WithContent(hits.hits[i], DocumentContent(hits.hits[i].content))),
               hits.aggregations)
  }

  /** One hit of a search document read as `targetType`, carrying `nested`. */
  function ConvertedHit(hit: SearchHit<SearchDocument>, targetType: string, nested: Option<NestedMetaData>): SearchHit<Content> {
    var doc := hit.content;
    SearchHit(doc.index, doc.id, doc.routing, doc.score, doc.sortValues, doc.highlightFields, hit.innerHits,
              nested, hit.explanation, hit.matchedQueries, ReadObject(targetType, doc))
  }

  /** The entity and mapped metadata the first hit's nested path leads to. */
  function InnerTarget(m: Mapping, hits: SearchHits<SearchDocument>): EntityWithNestedMetaData
    requires |hits.hits| > 0
  {
    var ctx := m.converter.ctx;
    EntityWithNestedMetaDataOf(ctx, PersistentEntity(ctx, m.typeName), hits.hits[0].content.nestedMetaData)
  }

  /** Reading some hit's document as `targetType` throws. */
  predicate ReadFails(m: Mapping, hits: SearchHits<SearchDocument>, targetType: string) {
    exists i | 0 <= i < |hits.hits| :: (targetType, hits.hits[i].content) in m.converter.readFailures
  }

  /** `mapInnerDocuments`: the hits read as objects of the entity the first
      hit's nested path leads to; the hits as they are when there are none,
      when the path leads to no entity, or when anything throws. */
  function InnerDocumentsOf(m: Mapping, hits: SearchHits<SearchDocument>): SearchHits<Content> {
    if hits.totalHits == 0 || |hits.hits| == 0 then AsContent(hits)
    else
      var target := InnerTarget(m, hits);
      if target.entity.None? || ReadFails(m, hits, target.entity.value.typeName) then AsContent(hits)
      else
        SearchHits(hits.totalHits, hits.totalHitsRelation, hits.maxScore, hits.scrollId,
                   seq(|hits.hits|, i requires 0 <= i < |hits.hits| =>
                     ConvertedHit(hits.hits[i], target.entity.value.typeName, target.nestedMetaData)),
                   hits.aggregations)
  }

  /** `mapInnerDocuments`, hit by hit. */
  method MapInnerDocuments(m: Mapping, hits: SearchHits<SearchDocument>) returns (r: SearchHits<Content>)
    ensures r == InnerDocumentsOf(m, hits)
  {
    if hits.totalHits == 0 || |hits.hits| == 0 {
      return AsContent(hits);
    }
    var target := GetPersistentEntity(m.converter.ctx, PersistentEntity(m.converter.ctx, m.typeName),
                                      hits.hits[0].content.nestedMetaData);
    if target.entity.None? {
      return AsContent(hits);
    }
    var targetType := target.entity.value.typeName;
    var converted: seq<SearchHit<Content>> := [];
    var i := 0;
    while i < |hits.hits|
      invariant 0 <= i <= |hits.hits|
      invariant |converted| == i
      invariant forall j :: 0 <= j < i ==> (targetType, hits.hits[j].content) !in m.converter.readFailures
      invariant forall j :: 0 <= j < i ==> converted[j] == ConvertedHit(hits.hits[j], targetType, target.nestedMetaData)
    {
      var doc := hits.hits[i].content;
      if (targetType, doc) in m.converter.readFailures {
        return AsContent(hits);
      }
      converted := converted + [ConvertedHit(hits.hits[i], targetType, target.nestedMetaData)];
      i := i + 1;
    }
    r := SearchHits(hits.totalHits, hits.totalHitsRelation, hits.maxScore, hits.scrollId, converted, hits.aggregations);
  }

  /** Inner documents keep the totals, the scroll id, the aggregations and the
      number of hits; they are converted exactly when there are hits, the
      first hit's path leads to an entity and every document can be read as
      it; converted hits hold the objects read from their documents in order,
      and all of them carry the first hit's mapped nested metadata. */
  lemma InnerDocumentsConverted(m: Mapping, hits: SearchHits<SearchDocument>)
    ensures var r := InnerDocumentsOf(m, hits);
      r.totalHits == hits.totalHits && r.totalHitsRelation == hits.totalHitsRelation &&
      r.maxScore == hits.maxScore && r.scrollId == hits.scrollId && r.aggregations == hits.aggregations &&
      |r.hits| == |hits.hits|
    ensures hits.totalHits == 0 ==> InnerDocumentsOf(m, hits) == AsContent(hits)
    ensures (InnerDocumentsOf(m, hits) != AsContent(hits)) <==>
      (hits.totalHits != 0 && |hits.hits| > 0 && InnerTarget(m, hits).entity.Some? &&
       !ReadFails(m, hits, InnerTarget(m, hits).entity.value.typeName))
    ensures InnerDocumentsOf(m, hits) != AsContent(hits) ==>
      var r := InnerDocumentsOf(m, hits);
      var target := InnerTarget(m, hits);
      forall i :: 0 <= i < |hits.hits| ==>
        r.hits[i].content == ReadObject(target.entity.value.typeName, hits.hits[i].content) &&
        r.hits[i].nestedMetaData == target.nestedMetaData &&
        r.hits[i].innerHits == hits.hits[i].innerHits &&
        r.hits[i].id == hits.hits[i].content.id
  {
    if hits.totalHits != 0 && |hits.hits| > 0 {
      var target := InnerTarget(m, hits);
      if target.entity.Some? && !ReadFails(m, hits, target.entity.value.typeName) {
        var r := InnerDocumentsOf(m, hits);
        assert r.hits[0].content != AsContent(hits).hits[0].content;
      }
    }
  }

  /** A hit copies its document's index, id, routing, score, sort values,
      nested metadata, explanation and matched queries and holds the given
      content; it fails exactly when renaming the highlights or mapping the
      inner hits fails, and a document without inner hits has none. */
  lemma HitCopiesDocument<T>(m: Mapping, doc: SearchDocument, content: T)
    ensures HitOf(m, doc, content).Success? <==> HighlightsOf(m, doc).Success? && InnerHitsOf(m, doc).Success?
    ensures HitOf(m, doc, content).Success? ==>
      var h := HitOf(m, doc, content).value;
      h.index == doc.index && h.id == doc.id && h.routing == doc.routing && h.score == doc.score &&
      h.sortValues == doc.sortValues && h.nestedMetaData == doc.nestedMetaData &&
      h.explanation == doc.explanation && h.matchedQueries == doc.matchedQueries &&
      h.content == content && h.highlightFields == HighlightsOf(m, doc).value &&
      h.innerHits == InnerHitsOf(m, doc).value
    ensures doc.innerHits == [] ==> InnerHitsOf(m, doc) == Success(map[])
  {
  }

  /** The first `k` hits failing makes the first `n >= k` fail the same way. */
  lemma {:induction false} HitListPrefixFailure<T>(m: Mapping, response: SearchDocumentResponse, contents: seq<T>, k: nat, n: nat)
    requires |response.searchDocuments| == |contents| && k <= n <= |contents|
    requires HitList(m, response, contents, k).Failure?
    ensures HitList(m, response, contents, n) == HitList(m, response, contents, k)
    decreases n
  {
    if n > k {
      HitListPrefixFailure(m, response, contents, k, n - 1);
    }
  }

  /** The hit list succeeds exactly when every document's hit does; then it
      holds those hits in order, and otherwise fails with the first failing
      document's error. */
  lemma {:induction false} HitListCharacterized<T>(m: Mapping, response: SearchDocumentResponse, contents: seq<T>, n: nat)
    requires |response.searchDocuments| == |contents| && n <= |contents|
    ensures HitList(m, response, contents, n).Success? <==>
      forall i :: 0 <= i < n ==> HitOf(m, response.searchDocuments[i], contents[i]).Success?
    ensures HitList(m, response, contents, n).Success? ==>
      var hits := HitList(m, response, contents, n).value;
      |hits| == n && forall i :: 0 <= i < n ==> hits[i] == HitOf(m, response.searchDocuments[i], contents[i]).value
    ensures HitList(m, response, contents, n).Failure? ==>
      exists i :: 0 <= i < n && HitOf(m, response.searchDocuments[i], contents[i]).Failure? &&
        HitList(m, response, contents, n).error == HitOf(m, response.searchDocuments[i], contents[i]).error &&
        forall j :: 0 <= j < i ==> HitOf(m, response.searchDocuments[j], contents[j]).Success?
    decreases n
  {
    if n > 0 {
      HitListCharacterized(m, response, contents, n - 1);
    }
  }

  /** A response maps to hits exactly when it has one content per document,
      its relation name is known and every document's hit maps; the hits
      then follow the documents in order, each holding its content, and the
      totals, scroll id and aggregations are the response's. */
  lemma HitsFollowDocuments<T>(m: Mapping, response: SearchDocumentResponse, contents: seq<T>)
    ensures |response.searchDocuments| != |contents| ==> HitsFromResponse(m, response, contents) == Failure(CountMismatch)
    ensures HitsFromResponse(m, response, contents).Success? <==>
      (|response.searchDocuments| == |contents| &&
       (forall i :: 0 <= i < |contents| ==> HitOf(m, response.searchDocuments[i], contents[i]).Success?) &&
       RelationOf(response.totalHitsRelation).Success?)
    ensures HitsFromResponse(m, response, contents).Success? ==>
      var r := HitsFromResponse(m, response, contents).value;
      r.totalHits == response.totalHits && RelationName(r.totalHitsRelation) == response.totalHitsRelation &&
      r.maxScore == response.maxScore && r.scrollId == response.scrollId && r.aggregations == response.aggregations &&
      |r.hits| == |contents| &&
      forall i :: 0 <= i < |contents| ==>
        r.hits[i] == HitOf(m, response.searchDocuments[i], contents[i]).value &&
        r.hits[i].content == contents[i] && r.hits[i].id == response.searchDocuments[i].id
  {
    if |response.searchDocuments| == |contents| {
      HitListCharacterized(m, response, contents, |contents|);
      forall i | 0 <= i < |contents| && HitOf(m, response.searchDocuments[i], contents[i]).Success?
        ensures HitOf(m, response.searchDocuments[i], contents[i]).value.content == contents[i]
        ensures HitOf(m, response.searchDocuments[i], contents[i]).value.id == response.searchDocuments[i].id
      {
        HitCopiesDocument(m, response.searchDocuments[i], contents[i]);
      }
    }
  }

  /** `mapHitsFromResponse`, document by document. */
  method MapHitsFromResponse<T>(m: Mapping, response: SearchDocumentResponse, contents: seq<T>)
    returns (r: Result<SearchHits<T>, MappingError>)
    ensures r == HitsFromResponse(m, response, contents)
  {
    if |response.searchDocuments| != |contents| {
      return Failure(CountMismatch);
    }
    var searchHits: seq<SearchHit<T>> := [];
    var i := 0;
    while i < |contents|
      invariant 0 <= i <= |contents|
      invariant HitList(m, response, contents, i) == Success(searchHits)
    {
      var hit := HitOf(m, response.searchDocuments[i], contents[i]);
      if hit.Failure? {
        HitListPrefixFailure(m, response, contents, i + 1, |contents|);
        return Failure(hit.error);
      }
      searchHits := searchHits + [hit.value];
      i := i + 1;
    }
    var relation := RelationOf(response.totalHitsRelation);
    if relation.Failure? {
      return Failure(relation.error);
    }
    r := Success(SearchHits(response.totalHits, relation.value, response.maxScore, response.scrollId,
                            searchHits, response.aggregations));
  }

  /** The first `k` entries failing makes the first `n >= k` fail the same way. */
  lemma {:induction false} InnerEntriesPrefixFailure(m: Mapping, doc: SearchDocument, k: nat, n: nat)
    requires k <= n <= |doc.innerHits|
    requires InnerEntriesOf(m, doc, k).Failure?
    ensures InnerEntriesOf(m, doc, n) == InnerEntriesOf(m, doc, k)
    decreases n
  {
    if n > k {
      InnerEntriesPrefixFailure(m, doc, k, n - 1);
    }
  }

  /** `mapInnerHits`, entry by entry. */
  method MapInnerHits(m: Mapping, doc: SearchDocument) returns (r: Result<map<string, SearchHits<Content>>, MappingError>)
    ensures r == InnerHitsOf(m, doc)
  {
    var innerHits: map<string, SearchHits<Content>> := map[];
    if |doc.innerHits| > 0 {
      var entries := doc.innerHits;
      var i := 0;
      while i < |entries|
        invariant 0 <= i <= |entries|
        invariant InnerEntriesOf(m, doc, i) == Success(innerHits)
      {
        var hits := MapHitsFromResponse(InnerMapping(m), entries[i].1, entries[i].1.searchDocuments);
        if hits.Failure? {
          InnerEntriesPrefixFailure(m, doc, i + 1, |entries|);
          return Failure(hits.error);
        }
        var mapped := MapInnerDocuments(m, hits.value);
        innerHits := innerHits[entries[i].0 := mapped];
        i := i + 1;
      }
    }
    r := Success(innerHits);
  }

  /** The inner hits are keyed by the names of the entries; each name holds
      the mapped response of the last entry with that name. */
  lemma InnerHitsByName(m: Mapping, doc: SearchDocument, n: nat)
    requires n <= |doc.innerHits|
    ensures InnerEntriesOf(m, doc, n).Success? ==>
      var r := InnerEntriesOf(m, doc, n).value;
      var entries := doc.innerHits;
      (forall k :: k in r <==> exists i :: 0 <= i < n && entries[i].0 == k) &&
      (forall i :: 0 <= i < n && (forall j :: i < j < n ==> entries[j].0 != entries[i].0) ==>
        InnerResponseHits(m, entries[i].1).Success? && r[entries[i].0] == InnerResponseHits(m, entries[i].1).value)
  {
    InnerHitsKeys(m, doc, n);
    InnerHitsLastEntry(m, doc, n);
  }

  /** The inner hits are keyed by exactly the names of the entries. */
  lemma {:induction false} InnerHitsKeys(m: Mapping, doc: SearchDocument, n: nat)
    requires n <= |doc.innerHits|
    ensures InnerEntriesOf(m, doc, n).Success? ==>
      forall k :: k in InnerEntriesOf(m, doc, n).value <==> exists i :: 0 <= i < n && doc.innerHits[i].0 == k
    decreases n
  {
    if n > 0 && InnerEntriesOf(m, doc, n).Success? {
      InnerHitsKeys(m, doc, n - 1);
      var entries := doc.innerHits;
      var init := InnerEntriesOf(m, doc, n - 1).value;
      var hits := InnerResponseHits(m, entries[n - 1].1);
      var r := InnerEntriesOf(m, doc, n).value;
      assert r == init[entries[n - 1].0 := hits.value];
      forall k
        ensures k in r <==> exists i :: 0 <= i < n && entries[i].0 == k
      {
        if k == entries[n - 1].0 {
          assert 0 <= n - 1 < n && entries[n - 1].0 == k;
        }
      }
    }
  }

  /** The last entry of a name holds that entry's response, mapped. */
  lemma {:induction false} InnerHitsLastEntry(m: Mapping, doc: SearchDocument, n: nat)
    requires n <= |doc.innerHits|
    ensures InnerEntriesOf(m, doc, n).Success? ==>
      var r := InnerEntriesOf(m, doc, n).value;
      var entries := doc.innerHits;
      forall i :: 0 <= i < n && (forall j :: i < j < n ==> entries[j].0 != entries[i].0) ==>
        InnerResponseHits(m, entries[i].1).Success? && entries[i].0 in r &&
        r[entries[i].0] == InnerResponseHits(m, entries[i].1).value
    decreases n
  {
    if n > 0 && InnerEntriesOf(m, doc, n).Success? {
      InnerHitsLastEntry(m, doc, n - 1);
      var entries := doc.innerHits;
      var init := InnerEntriesOf(m, doc, n - 1).value;
      var hits := InnerResponseHits(m, entries[n - 1].1);
      var r := InnerEntriesOf(m, doc, n).value;
      assert r == init[entries[n - 1].0 := hits.value];
      forall i | 0 <= i < n && (forall j :: i < j < n ==> entries[j].0 != entries[i].0)
        ensures InnerResponseHits(m, entries[i].1).Success? && entries[i].0 in r &&
          r[entries[i].0] == InnerResponseHits(m, entries[i].1).value
      {
        if i < n - 1 {
          assert entries[n - 1].0 != entries[i].0;
        }
      }
    }
  }
}
