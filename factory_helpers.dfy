/** The helper region of the request factory: query and filter extraction by
    query variant, the refresh-policy, script and version-type mappings, and
    the lookups into entity metadata the translations share. */
module FactoryHelpers {
  import opened Wrappers
  import opened Elastic
  import opened Metadata
  import opened Query
  import opened Operations
  import opened Requests

  /** `getQuery`: the scoring query of each known variant; any other variant is rejected. */
  function QueryOf(q: QueryState): Result<Option<QueryBuilder>, Error> {
    match q.variant
    case NativeSearch(n) => Success(n.query)
    case CriteriaSearch(c) => Success(if c.hasQueryPart then Some(FromCriteria(c.id, false)) else None)
    case StringSearch(source) => Success(Some(Wrapper(source)))
    case Other(name) => Failure(UnhandledQueryImplementation(name))
  }

  /** `getFilter`: the filter of each known variant; a string query has none. */
  function FilterOf(q: QueryState): Result<Option<QueryBuilder>, Error> {
    match q.variant
    case NativeSearch(n) => Success(n.filter)
    case CriteriaSearch(c) => Success(if c.hasFilterPart then Some(FromCriteria(c.id, true)) else None)
    case StringSearch(_) => Success(None)
    case Other(name) => Failure(UnhandledQueryImplementation(name))
  }

  /** The two extractions agree on which variants they accept: exactly the
      native, criteria and string queries. A native query passes its own query
      and filter through; a criteria query gives its query part and its filter
      part, each only when it has one; a string query becomes a wrapper query
      with no filter. */
  lemma QueryAndFilterDispatch(q: QueryState)
    ensures QueryOf(q).Failure? <==> q.variant.Other?
    ensures FilterOf(q).Failure? <==> q.variant.Other?
    ensures q.variant.Other? ==> QueryOf(q) == FilterOf(q) == Failure(UnhandledQueryImplementation(q.variant.className))
    ensures q.variant.NativeSearch? ==>
      QueryOf(q) == Success(q.variant.native.query) && FilterOf(q) == Success(q.variant.native.filter)
    ensures q.variant.CriteriaSearch? ==>
      QueryOf(q) == Success(if q.variant.criteria.hasQueryPart then Some(FromCriteria(q.variant.criteria.id, false)) else None) &&
      FilterOf(q) == Success(if q.variant.criteria.hasFilterPart then Some(FromCriteria(q.variant.criteria.id, true)) else None)
    ensures q.variant.StringSearch? ==>
      QueryOf(q) == Success(Some(Wrapper(q.variant.source))) && FilterOf(q) == Success(None)
  {
  }

  /** The filter an alias gets from its filter query: the query's filter, or
      its scoring query when it has no filter. */
  function AliasFilterOf(q: QueryState): (r: Result<Option<QueryBuilder>, Error>)
    ensures r.Failure? <==> q.variant.Other?
    ensures r.Success? ==> (FilterOf(q).value.Some? ==> r.value == FilterOf(q).value)
    ensures r.Success? ==> (FilterOf(q).value.None? ==> r.value == QueryOf(q).value)
  {
    var filter :- FilterOf(q);
    if filter.Some? then Success(filter) else QueryOf(q)
  }

  /** `toElasticsearchRefreshPolicy`: each policy maps to the one of the same
      name, so no two policies are confused. */
  function ToWriteRefreshPolicy(p: RefreshPolicy): (w: WriteRefreshPolicy)
    ensures w == WriteImmediate <==> p == Immediate
    ensures w == WriteWaitUntil <==> p == WaitUntil
    ensures w == WriteNone <==> p == RefreshNone
  {
    match p
    case Immediate => WriteImmediate
    case WaitUntil => WriteWaitUntil
    case RefreshNone => WriteNone
  }

  /** `getScriptType`: stored only when stored is asked for; absent means inline. */
  function ScriptKindOf(t: Option<ScriptType>): (k: ScriptKind)
    ensures k == StoredScript <==> t == Some(Stored)
  {
    match t
    case Some(Stored) => StoredScript
    case _ => InlineScript
  }

  /** `getScript`: a stored script by name, or an inline script with the
      query's language; absent in every other case. */
  function ScriptOf(u: UpdateQuery): Option<Script> {
    if u.scriptType == Some(Stored) && u.scriptName.Some? then
      Some(Script(ScriptKindOf(Some(Stored)), None, u.scriptName.value, u.params.GetOr(map[])))
    else if u.scriptType == Some(Inline) && u.script.Some? then
      Some(Script(ScriptKindOf(Some(Inline)), u.lang, u.script.value, u.params.GetOr(map[])))
    else
      None
  }

  /** The script of an update-by-query: present exactly when a stored script
      has a name or an inline script has a source; its kind is what
      `getScriptType` gives for the query's type, a stored script has no
      language, an inline one the query's, and missing parameters become an
      empty map. */
  lemma ScriptSelection(u: UpdateQuery)
    ensures ScriptOf(u).Some? <==>
      (u.scriptType == Some(Stored) && u.scriptName.Some?) || (u.scriptType == Some(Inline) && u.script.Some?)
    ensures ScriptOf(u).Some? ==> ScriptOf(u).value.kind == ScriptKindOf(u.scriptType)
    ensures ScriptOf(u).Some? && u.scriptType == Some(Stored) ==>
      ScriptOf(u).value.lang.None? && ScriptOf(u).value.idOrCode == u.scriptName.value
    ensures ScriptOf(u).Some? && u.scriptType == Some(Inline) ==>
      ScriptOf(u).value.lang == u.lang && ScriptOf(u).value.idOrCode == u.script.value
    ensures ScriptOf(u).Some? ==> ScriptOf(u).value.params == (if u.params.Some? then u.params.value else map[])
  {
  }

  /** The name of a declared version type, `name()`. */
  function DeclaredName(v: DocumentVersionType): string {
    match v
    case Internal => "INTERNAL"
    case External => "EXTERNAL"
    case ExternalGte => "EXTERNAL_GTE"
  }

  function LowerChar(c: char): char {
    if 'A' <= c <= 'Z' then (c as int - 'A' as int + 'a' as int) as char else c
  }

  /** `String.toLowerCase()` on ASCII text. */
  function LowerCase(s: string): string {
    seq(|s|, i requires 0 <= i < |s| => LowerChar(s[i]))
  }

  /** `VersionType.fromString`: the names the library accepts; any other throws. */
  function VersionTypeFromString(s: string): Option<VersionType> {
    if s == "internal" then Some(VersionInternal)
    else if s == "external" || s == "external_gt" then Some(VersionExternal)
    else if s == "external_gte" then Some(VersionExternalGte)
    else None
  }

  /** The declared version type as the factory converts it: by lower-cased name. */
  function ConvertedVersionType(v: DocumentVersionType): Option<VersionType> {
    VersionTypeFromString(LowerCase(DeclaredName(v)))
  }

  /** The conversion by name never fails and keeps the declared type. */
  lemma ConvertedVersionTypeMatches(v: DocumentVersionType)
    ensures ConvertedVersionType(v) == Some(match v
      case Internal => VersionInternal
      case External => VersionExternal
      case ExternalGte => VersionExternalGte)
  {
    match v
    case Internal =>
      assert LowerCase("INTERNAL") == "internal";
    case External =>
      assert LowerCase("EXTERNAL") == "external";
    case ExternalGte =>
      assert LowerCase("EXTERNAL_GTE") == "external_gte";
  }

  /** `retrieveVersionTypeFromPersistentEntity`: the entity's declared version
      type, or EXTERNAL when there is no class, no entity or no declaration. */
  function VersionTypeOf(ctx: MappingContext, clazz: Option<string>): VersionType {
    if clazz.Some? && clazz.value in ctx && ctx[clazz.value].versionType.Some? then
      ConvertedVersionType(ctx[clazz.value].versionType.value).GetOr(VersionExternal)
    else
      VersionExternal
  }

  /** The version type of a request is the declared one when the class has an
      entity that declares one, and EXTERNAL otherwise. */
  lemma VersionTypeDefault(ctx: MappingContext, clazz: Option<string>)
    ensures (clazz.Some? && clazz.value in ctx && ctx[clazz.value].versionType.Some?) ==>
      VersionTypeOf(ctx, clazz) == match ctx[clazz.value].versionType.value
        case Internal => VersionInternal
        case External => VersionExternal
        case ExternalGte => VersionExternalGte
    ensures !(clazz.Some? && clazz.value in ctx && ctx[clazz.value].versionType.Some?) ==>
      VersionTypeOf(ctx, clazz) == VersionExternal
  {
    if clazz.Some? && clazz.value in ctx && ctx[clazz.value].versionType.Some? {
      ConvertedVersionTypeMatches(ctx[clazz.value].versionType.value);
    }
  }

  /** `getPersistentEntityId`: the identifier of an object whose class has an entity. */
  function PersistentEntityId(ctx: MappingContext, obj: EntityObject): Option<string> {
    if obj.typeName in ctx then obj.identifier else None
  }

  /** `hasSeqNoPrimaryTermProperty` */
  function HasSeqNoPrimaryTermProperty(ctx: MappingContext, clazz: Option<string>): bool {
    clazz.Some? && clazz.value in ctx && ctx[clazz.value].hasSeqNoPrimaryTermProperty
  }

  /** `getPersistentEntity(clazz)` of the factory: none without a class. */
  function EntityFor(ctx: MappingContext, clazz: Option<string>): Option<Entity> {
    if clazz.Some? then PersistentEntity(ctx, clazz.value) else None
  }

  /** `getFetchSourceContext`: fetch the source with the filter's patterns, when there is a filter. */
  function FetchSourceContextOf(q: QueryState): Option<FetchSourceContext> {
    if q.sourceFilter.Some? then
      Some(FetchSourceContext(true, q.sourceFilter.value.includes, q.sourceFilter.value.excludes))
    else
      None
  }

  /** `forEach(target::add)`: appends the elements one by one, in order. */
  method AppendAll<T>(acc: seq<T>, xs: seq<T>) returns (r: seq<T>)
    ensures r == acc + xs
  {
    r := acc;
    var i := 0;
    while i < |xs|
      invariant 0 <= i <= |xs|
      invariant r == acc + xs[..i]
    {
      r := r + [xs[i]];
      i := i + 1;
    }
    assert xs[..i] == xs;
  }

  /** Translates a list element by element, in order, as a `forEach` that
      adds each translation to a request does; the first element that cannot
      be translated ends the translation with its error. */
  function TranslateAll<A, B>(xs: seq<A>, f: A -> Result<B, Error>): Result<seq<B>, Error> {
    if xs == [] then Success([])
    else
      var init :- TranslateAll(xs[..|xs| - 1], f);
      var last :- f(xs[|xs| - 1]);
      Success(init + [last])
  }

  /** The translation fails exactly when some element fails, with the error
      of the first that does; otherwise it has one result per element, in
      order. */
  lemma {:induction false} TranslateAllCharacterized<A, B>(xs: seq<A>, f: A -> Result<B, Error>)
    ensures TranslateAll(xs, f).Failure? <==> exists i :: 0 <= i < |xs| && f(xs[i]).Failure?
    ensures TranslateAll(xs, f).Failure? ==>
      exists i :: (0 <= i < |xs| && f(xs[i]).Failure? &&
        (forall j :: 0 <= j < i ==> f(xs[j]).Success?) &&
        TranslateAll(xs, f).error == f(xs[i]).error)
    ensures TranslateAll(xs, f).Success? ==>
      |TranslateAll(xs, f).value| == |xs| &&
      forall i :: 0 <= i < |xs| ==> TranslateAll(xs, f).value[i] == f(xs[i]).value
  {
    if xs != [] {
      var init := xs[..|xs| - 1];
      TranslateAllCharacterized(init, f);
      assert forall i :: 0 <= i < |init| ==> init[i] == xs[i];
      if TranslateAll(init, f).Failure? {
        var i :| 0 <= i < |init| && f(init[i]).Failure? &&
          (forall j :: 0 <= j < i ==> f(init[j]).Success?) &&
          TranslateAll(init, f).error == f(init[i]).error;
        assert f(xs[i]).Failure?;
      } else if f(xs[|xs| - 1]).Failure? {
        assert forall j :: 0 <= j < |xs| - 1 ==> f(xs[j]).Success?;
      }
    }
  }

  /** Once a prefix fails, the whole list fails with the prefix's error. */
  lemma {:induction false} TranslateAllPrefixFailure<A, B>(xs: seq<A>, f: A -> Result<B, Error>, i: nat)
    requires i <= |xs|
    requires TranslateAll(xs[..i], f).Failure?
    ensures TranslateAll(xs, f) == TranslateAll(xs[..i], f)
    decreases |xs|
  {
    if i < |xs| {
      var init := xs[..|xs| - 1];
      assert init[..i] == xs[..i];
      TranslateAllPrefixFailure(init, f, i);
    } else {
      assert xs[..i] == xs;
    }
  }
}
