/** The alias region of the request factory: the indices-aliases request
    built from a list of alias actions. */
module AliasRequests {
  import opened Wrappers
  import opened Elastic
  import opened Query
  import opened Operations
  import opened Requests
  import opened FactoryHelpers

  /** The filter of an alias being added: from its filter query, when it has one. */
  function AddFilterOf(p: AliasActionParameters): Result<Option<QueryBuilder>, Error> {
    if p.filterQuery.Some? then AliasFilterOf(p.filterQuery.value) else Success(None)
  }

  /** The library action one alias action becomes: an add with all its
      parameters and its filter, a remove with its indices and aliases, or a
      remove-index on the first of its indices. */
  function AliasActionOf(a: AliasAction): Result<AliasActionRequest, Error> {
    match a
    case Add(p) =>
      var filter :- AddFilterOf(p);
      Success(NewAliasAction(AddAlias).(indices := p.indices, aliases := p.aliases, routing := p.routing,
                                        indexRouting := p.indexRouting, searchRouting := p.searchRouting,
                                        hidden := p.hidden, writeIndex := p.writeIndex, filter := filter))
    case Remove(p) =>
      Success(NewAliasAction(RemoveAlias).(indices := p.indices, aliases := p.aliases))
    case RemoveIndex(p) =>
      if |p.indices| == 0 then Failure(IndexOutOfBounds)
      else Success(NewAliasAction(RemoveIndexAction).(indices := [p.indices[0]]))
  }

  /** `indicesAliasesRequest` */
  function IndicesAliasesRequestOf(actions: seq<AliasAction>): Result<seq<AliasActionRequest>, Error> {
    TranslateAll(actions, AliasActionOf)
  }

  /** `indicesAliasesRequest`, action by action. */
  method BuildIndicesAliasesRequest(actions: seq<AliasAction>) returns (r: Result<seq<AliasActionRequest>, Error>)
    ensures r == IndicesAliasesRequestOf(actions)
  {
    var request := [];
    var i := 0;
    while i < |actions|
      invariant 0 <= i <= |actions|
      invariant TranslateAll(actions[..i], AliasActionOf) == Success(request)
    {
      assert actions[..i + 1][..i] == actions[..i];
      var action: AliasActionRequest;
      match actions[i] {
        case Add(p) =>
          action := NewAliasAction(AddAlias);
          action := action.(indices := p.indices, aliases := p.aliases, routing := p.routing,
                            indexRouting := p.indexRouting, searchRouting := p.searchRouting,
                            hidden := p.hidden, writeIndex := p.writeIndex);
          if p.filterQuery.Some? {
            var filter := FilterOf(p.filterQuery.value);
            if filter.Success? && filter.value.None? {
              filter := QueryOf(p.filterQuery.value);
            }
            if filter.Failure? {
              TranslateAllPrefixFailure(actions, AliasActionOf, i + 1);
              return Failure(filter.error);
            }
            action := action.(filter := filter.value);
          }
        case Remove(p) =>
          action := NewAliasAction(RemoveAlias);
          action := action.(indices := p.indices, aliases := p.aliases);
        case RemoveIndex(p) =>
          if |p.indices| == 0 {
            TranslateAllPrefixFailure(actions, AliasActionOf, i + 1);
            return Failure(IndexOutOfBounds);
          }
          action := NewAliasAction(RemoveIndexAction);
          action := action.(indices := [p.indices[0]]);
      }
      request := request + [action];
      i := i + 1;
    }
    assert actions[..i] == actions;
    r := Success(request);
  }

  /** The request holds one action per alias action, in order, of the same
      kind; it fails exactly when a remove-index action names no index or an
      add action's filter query is of an unknown variant. */
  lemma AliasActionsInOrder(actions: seq<AliasAction>)
    ensures IndicesAliasesRequestOf(actions).Failure? <==>
      exists i :: 0 <= i < |actions| &&
        ((actions[i].RemoveIndex? && actions[i].parameters.indices == []) ||
         (actions[i].Add? && actions[i].parameters.filterQuery.Some? &&
          actions[i].parameters.filterQuery.value.variant.Other?))
    ensures IndicesAliasesRequestOf(actions).Success? ==>
      var r := IndicesAliasesRequestOf(actions).value;
      |r| == |actions| &&
      forall i :: 0 <= i < |actions| ==>
        (r[i].actionType == AddAlias <==> actions[i].Add?) &&
        (r[i].actionType == RemoveAlias <==> actions[i].Remove?) &&
        (r[i].actionType == RemoveIndexAction <==> actions[i].RemoveIndex?)
  {
    TranslateAllCharacterized(actions, AliasActionOf);
    forall i | 0 <= i < |actions|
      ensures AliasActionOf(actions[i]).Failure? <==>
        ((actions[i].RemoveIndex? && actions[i].parameters.indices == []) ||
         (actions[i].Add? && actions[i].parameters.filterQuery.Some? &&
          actions[i].parameters.filterQuery.value.variant.Other?))
    {
    }
  }

  /** An added alias is filtered by its filter query's filter, or by its
      scoring query when the filter query has no filter. */
  lemma AddFilterFallsBackToQuery(p: AliasActionParameters, q: QueryState)
    requires p.filterQuery == Some(q) && !q.variant.Other?
    ensures AliasActionOf(Add(p)).Success?
    ensures FilterOf(q).value.Some? ==> AliasActionOf(Add(p)).value.filter == FilterOf(q).value
    ensures FilterOf(q).value.None? ==> AliasActionOf(Add(p)).value.filter == QueryOf(q).value
  {
  }

  /** A remove-index action removes only the first index it names. */
  lemma RemoveIndexUsesFirstIndex(p: AliasActionParameters)
    requires |p.indices| > 0
    ensures AliasActionOf(RemoveIndex(p)).Success?
    ensures AliasActionOf(RemoveIndex(p)).value.indices == [p.indices[0]]
    ensures AliasActionOf(RemoveIndex(p)).value.aliases.None?
  {
  }
}
