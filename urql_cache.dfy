/** The mutation update resolvers of the web app's normalised GraphQL
    cache (packages/web/app/src/lib/urql-cache.ts). After a mutation
    completes, the resolver registered under the mutation's field name
    either patches one cached query result, invalidates one entity key, or
    does nothing. The cache library itself is modelled only as a map from
    (query, variables) to cached result data plus a set of invalidated
    entity keys. */
module UrqlCache {
  import opened Seqs

  type Id = string

  /** The normalised identity of an entity: (`__typename`, `id`). */
  datatype EntityKey = EntityKey(typename: string, id: Id)

  datatype Value = Null | Bool(b: bool) | Number(n: int) | Text(s: string)

  /** The scalar fields of an object, by field name. */
  type Fields = map<string, Value>

  /** One entry of a cached list: an entity reference and its selected fields. */
  datatype Node = Node(id: Id, fields: Fields)

  /** A list field: `{ total, nodes }`. */
  datatype Connection = Connection(nodes: seq<Node>, total: int)

  /** The data cached for one query. The organizations, targets and tokens
      queries hold one list field; the collections query holds a `target`
      object next to its other top-level fields (`rest`). */
  datatype Data =
    | ListResult(list: Connection)
    | CollectionsResult(target: Fields, rest: Fields)

  /** The queries the resolvers patch. */
  datatype QueryName = OrganizationsQuery | TargetsQuery | TokensQuery | CollectionsQuery

  /** The `selector` variable of a query. */
  datatype SelectorInput =
    | ProjectSelector(organization: Id, project: Id)
    | TargetSelector(organization: Id, project: Id, target: Id)

  datatype Variables = NoVariables | SelectorVariables(selector: SelectorInput)

  /** The key of a cached query result: the query and its variables. */
  datatype QueryInput = QueryInput(query: QueryName, variables: Variables)

  /** Shape agreement between a query and the data cached for it. */
  predicate Conforms(query: QueryName, data: Data) {
    if query == CollectionsQuery then data.CollectionsResult? else data.ListResult?
  }

  // ---------------------------------------------------------------------
  // Query documents and getOperationName

  /** The top-level definitions of a GraphQL document. */
  datatype Definition =
    | OperationDefinition(name: Option<string>)
    | FragmentDefinition(fragmentName: string)
    | OtherDefinition

  type Document = seq<Definition>

  /** The document of each patched query. Only the targets query is spelled
      out in the modelled file; the operation names of the other three are
      placeholders for documents defined elsewhere. */
  function DocumentOf(query: QueryName): Document {
    match query
    case TargetsQuery => [OperationDefinition(Some("targets")), FragmentDefinition("TargetFields")]
    case OrganizationsQuery => [OperationDefinition(Some("organizations"))]
    case TokensQuery => [OperationDefinition(Some("tokens"))]
    case CollectionsQuery => [OperationDefinition(Some("collections"))]
  }

  predicate NoOperationBefore(doc: Document, i: int) {
    forall j :: 0 <= j < i && j < |doc| ==> !doc[j].OperationDefinition?
  }

  /** `name` is the name of the first operation definition of `doc`
      (`None` when that operation is anonymous), and `None` when `doc` has
      no operation definition at all. */
  ghost predicate NamesFirstOperation(doc: Document, name: Option<string>) {
    && (forall i :: 0 <= i < |doc| && doc[i].OperationDefinition? && NoOperationBefore(doc, i) ==> doc[i].name == name)
    && (name.Some? ==> exists i :: 0 <= i < |doc| && doc[i].OperationDefinition? && NoOperationBefore(doc, i))
  }

  /** getOperationName: the name of the first operation definition,
      skipping fragments and other definitions. */
  method GetOperationName(doc: Document) returns (name: Option<string>)
    ensures NamesFirstOperation(doc, name)
  {
    var i := 0;
    while i < |doc|
      invariant 0 <= i <= |doc|
      invariant NoOperationBefore(doc, i)
    {
      if doc[i].OperationDefinition? {
        return doc[i].name;
      }
      i := i + 1;
    }
    return None;
  }

  /** A document has one operation name: the relation is functional. */
  lemma OperationNameUnique(doc: Document, a: Option<string>, b: Option<string>)
    requires NamesFirstOperation(doc, a) && NamesFirstOperation(doc, b)
    ensures a == b
  {
    if a.Some? || b.Some? {
      var i :| 0 <= i < |doc| && doc[i].OperationDefinition? && NoOperationBefore(doc, i);
    }
  }

  // ---------------------------------------------------------------------
  // The cache

  /** An updater may turn a missing result into a written one and a cached
      result into a rewritten one; it keeps the shape the query demands. */
  ghost predicate KeepsShape(query: QueryName, updater: Option<Data> -> Option<Data>) {
    && (updater(None).Some? ==> Conforms(query, updater(None).value))
    && (forall d :: Conforms(query, d) && updater(Some(d)).Some? ==> Conforms(query, updater(Some(d)).value))
  }

  /** The part of the normalised cache the resolvers see: cached query
      results by (query, variables), and the entity keys invalidated so far. */
  class Cache {
    var results: map<QueryInput, Data>
    var invalidated: set<EntityKey>

    ghost predicate Valid()
      reads this
    {
      forall input :: input in results ==> Conforms(input.query, results[input])
    }

    constructor ()
      ensures Valid() && results == map[] && invalidated == {}
    {
      results := map[];
      invalidated := {};
    }

    /** cache.updateQuery: read the cached result (or nothing), hand it to
        `updater`, and write back what it returns unless it returns null. */
    method UpdateQuery(input: QueryInput, updater: Option<Data> -> Option<Data>)
      requires Valid() && KeepsShape(input.query, updater)
      modifies this
      ensures Valid() && invalidated == old(invalidated)
      ensures var written := updater(if input in old(results) then Some(old(results)[input]) else None);
              results == if written.Some? then old(results)[input := written.value] else old(results)
    {
      var current := if input in results then Some(results[input]) else None;
      var written := updater(current);
      if written.Some? {
        results := results[input := written.value];
      }
    }

    /** cache.invalidate: mark one entity key stale; cached results stay
        until the next read refetches them. */
    method Invalidate(key: EntityKey)
      requires Valid()
      modifies this
      ensures Valid()
      ensures results == old(results) && invalidated == old(invalidated) + {key}
    {
      invalidated := invalidated + {key};
    }
  }

  /** The diagnostic `console.error` records when a patch finds no data. */
  datatype Diagnostic = Diagnostic(operationName: Option<string>, variables: Variables)

  /** The cached results after `recipe` was applied to the result at
      `input`, or unchanged when nothing is cached there. */
  ghost predicate Produced(before: map<QueryInput, Data>, after: map<QueryInput, Data>,
                           input: QueryInput, recipe: Data -> Data)
  {
    after == if input in before then before[input := recipe(before[input])] else before
  }

  /** `logged` is the diagnostic for a patch of `input` that found no data. */
  ghost predicate ReportsMiss(logged: Option<Diagnostic>, input: QueryInput) {
    && logged.Some?
    && logged.value.variables == input.variables
    && NamesFirstOperation(DocumentOf(input.query), logged.value.operationName)
  }

  /** The module's updateQuery helper: with no cached data it records a
      diagnostic with the operation name and variables and writes nothing;
      otherwise it writes the recipe's edit of a copy of the data. */
  method UpdateQuery(cache: Cache, input: QueryInput, recipe: Data -> Data) returns (logged: Option<Diagnostic>)
    requires cache.Valid()
    requires forall d :: Conforms(input.query, d) ==> Conforms(input.query, recipe(d))
    modifies cache
    ensures cache.Valid() && cache.invalidated == old(cache.invalidated)
    ensures Produced(old(cache.results), cache.results, input, recipe)
    ensures input in old(cache.results) ==> logged.None?
    ensures input !in old(cache.results) ==> ReportsMiss(logged, input)
  {
    logged := None;
    if input !in cache.results {
      var name := GetOperationName(DocumentOf(input.query));
      logged := Some(Diagnostic(name, input.variables));
    }
    cache.UpdateQuery(input, (data: Option<Data>) => if data.None? then None else Some(recipe(data.value)));
  }

  // ---------------------------------------------------------------------
  // Recipes: the edits applied to a copy of cached data

  /** `nodes.unshift(node); total += 1`. */
  function Unshift(data: Data, node: Node): (r: Data)
    ensures r.ListResult? == data.ListResult?
    ensures data.ListResult? ==>
              && |r.list.nodes| == |data.list.nodes| + 1
              && r.list.nodes[0] == node
              && (forall i :: 0 <= i < |data.list.nodes| ==> r.list.nodes[i + 1] == data.list.nodes[i])
              && r.list.total == data.list.total + 1
    ensures !data.ListResult? ==> r == data
  {
    match data
    case ListResult(c) => ListResult(Connection([node] + c.nodes, c.total + 1))
    case _ => data
  }

  /** The filter that keeps the nodes whose id was not deleted. */
  function NotDeleted(deleted: seq<Id>): Node -> bool {
    (n: Node) => n.id !in deleted
  }

  /** `nodes = nodes.filter(n => !deleted.includes(n.id)); total = nodes.length`. */
  function RemoveDeleted(data: Data, deleted: seq<Id>): (r: Data)
    ensures r.ListResult? == data.ListResult?
    ensures data.ListResult? ==>
              && (forall n :: n in r.list.nodes <==> n in data.list.nodes && n.id !in deleted)
              && r.list.nodes == Filter(data.list.nodes, NotDeleted(deleted))
              && r.list.total == |r.list.nodes|
    ensures !data.ListResult? ==> r == data
  {
    match data
    case ListResult(c) =>
      var kept := Filter(c.nodes, NotDeleted(deleted));
      ListResult(Connection(kept, |kept|))
    case _ => data
  }

  /** `{ ...data, target: Object.assign({}, data.target, updatedTarget) }`. */
  function MergeTarget(data: Data, updatedTarget: Fields): (r: Data)
    ensures r.CollectionsResult? == data.CollectionsResult?
    ensures data.CollectionsResult? ==>
              && r.rest == data.rest
              && r.target.Keys == data.target.Keys + updatedTarget.Keys
              && (forall k :: k in updatedTarget ==> r.target[k] == updatedTarget[k])
              && (forall k :: k in data.target && k !in updatedTarget ==> r.target[k] == data.target[k])
    ensures !data.CollectionsResult? ==> r == data
  {
    match data
    case CollectionsResult(target, rest) => CollectionsResult(target + updatedTarget, rest)
    case _ => data
  }

  /** Merging nothing leaves a collections result as it was. */
  lemma MergeNothing(data: Data)
    ensures MergeTarget(data, map[]) == data
  {
    if data.CollectionsResult? {
      assert data.target + map[] == data.target;
    }
  }

  /** Nothing makes a create resolver idempotent: prepending the same node
      twice leaves it in the list twice and counts it twice. */
  lemma UnshiftTwiceIsNotUnshiftOnce(data: Data, node: Node)
    requires data.ListResult?
    ensures Unshift(Unshift(data, node), node) != Unshift(data, node)
    ensures Unshift(Unshift(data, node), node).list.total == data.list.total + 2
  {
    assert |Unshift(Unshift(data, node), node).list.nodes| == |data.list.nodes| + 2;
  }

  /** Deleting a node right after creating it restores the old list, but
      `total` becomes the list length, not the old `total`: the two agree
      only when they agreed before the insertion. */
  lemma {:induction false} RemoveAfterUnshift(data: Data, node: Node)
    requires data.ListResult?
    requires forall n :: n in data.list.nodes ==> n.id != node.id
    ensures RemoveDeleted(Unshift(data, node), [node.id]).list.nodes == data.list.nodes
    ensures RemoveDeleted(Unshift(data, node), [node.id]).list.total == |data.list.nodes|
  {
    var keep := NotDeleted([node.id]);
    FilterAppend([node], data.list.nodes, keep);
    FilterKeepsAll(data.list.nodes, keep);
    assert Unshift(data, node).list.nodes == [node] + data.list.nodes;
  }

  /** The tokens example: four tokens with total 4, deleting t1 and t3
      leaves [t2, t4] with total 2. */
  lemma DeleteTokensExample(t1: Node, t2: Node, t3: Node, t4: Node)
    requires t1.id == "t1" && t2.id == "t2" && t3.id == "t3" && t4.id == "t4"
    ensures RemoveDeleted(ListResult(Connection([t1, t2, t3, t4], 4)), ["t1", "t3"])
            == ListResult(Connection([t2, t4], 2))
  {
    var keep := NotDeleted(["t1", "t3"]);
    assert !keep(t1) && keep(t2) && !keep(t3) && keep(t4);
    var s := [t1, t2, t3, t4];
    assert s[1..] == [t2, t3, t4] && s[1..][1..] == [t3, t4] && s[1..][1..][1..] == [t4];
    assert Filter([t4], keep) == [t4];
    assert Filter([t3, t4], keep) == [t4];
    assert Filter([t2, t3, t4], keep) == [t2, t4];
  }

  /** Deletion recounts instead of decrementing: with a stale `total` of 5
      over two nodes, deleting one node yields `total` 1, not 5 - 1. */
  lemma DeletionDoesNotDecrement(a: Node, b: Node)
    requires a.id == "a" && b.id == "b"
    ensures RemoveDeleted(ListResult(Connection([a, b], 5)), ["a"]).list.total == 1
  {
    var keep := NotDeleted(["a"]);
    assert !keep(a) && keep(b);
    assert [a, b][1..] == [b];
    assert Filter([b], keep) == [b];
  }

  // ---------------------------------------------------------------------
  // Mutation results

  /** The `{ ok } | { error }` result envelope of a mutation. */
  datatype Envelope<+T> = Ok(ok: T) | Error(message: string)

  /** A `selector` returned by a mutation's `ok` payload. */
  datatype Selector = Selector(organization: Id, project: Id, target: Id)

  datatype CreatedTarget = CreatedTarget(createdTarget: Node, selector: Selector)
  datatype CreatedToken = CreatedToken(createdToken: Node, selector: Selector)

  const OrganizationsInput := QueryInput(OrganizationsQuery, NoVariables)

  function TargetsInput(selector: Selector): QueryInput {
    QueryInput(TargetsQuery, SelectorVariables(ProjectSelector(selector.organization, selector.project)))
  }

  function TokensInput(selector: Selector): QueryInput {
    QueryInput(TokensQuery, SelectorVariables(TargetSelector(selector.organization, selector.project, selector.target)))
  }

  function CollectionsInput(selector: SelectorInput): QueryInput {
    QueryInput(CollectionsQuery, SelectorVariables(selector))
  }

  // ---------------------------------------------------------------------
  // The resolvers

  /** createOrganization: always patches the organizations list; the recipe
      itself checks `ok`, prepending the new organization and counting it. */
  method CreateOrganization(result: Envelope<Node>, cache: Cache) returns (logged: Option<Diagnostic>)
    requires cache.Valid()
    modifies cache
    ensures cache.Valid() && cache.invalidated == old(cache.invalidated)
    ensures result.Ok? ==> Produced(old(cache.results), cache.results, OrganizationsInput, (d: Data) => Unshift(d, result.ok))
    ensures result.Error? ==> cache.results == old(cache.results)
    ensures OrganizationsInput in old(cache.results) ==> logged.None?
    ensures OrganizationsInput !in old(cache.results) ==> ReportsMiss(logged, OrganizationsInput)
  {
    logged := UpdateQuery(cache, OrganizationsInput, (d: Data) => if result.Ok? then Unshift(d, result.ok) else d);
  }

  /** deleteOrganization: invalidates the returned organization, whatever
      the mutation reported. */
  method DeleteOrganization(organization: EntityKey, cache: Cache)
    requires cache.Valid()
    modifies cache
    ensures cache.Valid() && cache.results == old(cache.results)
    ensures cache.invalidated == old(cache.invalidated) + {organization}
  {
    cache.Invalidate(organization);
  }

  /** createProject: on `ok`, invalidates the updated organization. */
  method CreateProject(result: Envelope<Id>, cache: Cache)
    requires cache.Valid()
    modifies cache
    ensures cache.Valid() && cache.results == old(cache.results)
    ensures cache.invalidated == old(cache.invalidated) + (if result.Ok? then {EntityKey("Organization", result.ok)} else {})
  {
    if !result.Ok? {
      return;
    }
    cache.Invalidate(EntityKey("Organization", result.ok));
  }

  /** deleteProject: invalidates the returned project. */
  method DeleteProject(deletedProject: EntityKey, cache: Cache)
    requires cache.Valid()
    modifies cache
    ensures cache.Valid() && cache.results == old(cache.results)
    ensures cache.invalidated == old(cache.invalidated) + {deletedProject}
  {
    cache.Invalidate(deletedProject);
  }

  /** createTarget: on `ok`, prepends the new target to the targets list of
      its project; on error it returns before touching the cache. */
  method CreateTarget(result: Envelope<CreatedTarget>, cache: Cache) returns (logged: Option<Diagnostic>)
    requires cache.Valid()
    modifies cache
    ensures cache.Valid() && cache.invalidated == old(cache.invalidated)
    ensures result.Error? ==> cache.results == old(cache.results) && logged.None?
    ensures result.Ok? ==>
              var input := TargetsInput(result.ok.selector);
              && Produced(old(cache.results), cache.results, input, (d: Data) => Unshift(d, result.ok.createdTarget))
              && (input in old(cache.results) ==> logged.None?)
              && (input !in old(cache.results) ==> ReportsMiss(logged, input))
  {
    if !result.Ok? {
      return None;
    }
    var target := result.ok.createdTarget;
    var selector := result.ok.selector;
    logged := UpdateQuery(cache, TargetsInput(selector), (d: Data) => Unshift(d, target));
  }

  /** deleteTarget: invalidates the returned target. */
  method DeleteTarget(deletedTarget: EntityKey, cache: Cache)
    requires cache.Valid()
    modifies cache
    ensures cache.Valid() && cache.results == old(cache.results)
    ensures cache.invalidated == old(cache.invalidated) + {deletedTarget}
  {
    cache.Invalidate(deletedTarget);
  }

  /** createToken: on `ok`, prepends the new token to the tokens list of
      its target; on error it returns before touching the cache. */
  method CreateToken(result: Envelope<CreatedToken>, cache: Cache) returns (logged: Option<Diagnostic>)
    requires cache.Valid()
    modifies cache
    ensures cache.Valid() && cache.invalidated == old(cache.invalidated)
    ensures result.Error? ==> cache.results == old(cache.results) && logged.None?
    ensures result.Ok? ==>
              var input := TokensInput(result.ok.selector);
              && Produced(old(cache.results), cache.results, input, (d: Data) => Unshift(d, result.ok.createdToken))
              && (input in old(cache.results) ==> logged.None?)
              && (input !in old(cache.results) ==> ReportsMiss(logged, input))
  {
    if !result.Ok? {
      return None;
    }
    var token := result.ok.createdToken;
    logged := UpdateQuery(cache, TokensInput(result.ok.selector), (d: Data) => Unshift(d, token));
  }

  /** deleteTokens: no `ok` check; drops the deleted tokens from the tokens
      list of the selected target and recounts `total`. */
  method DeleteTokens(selector: Selector, deletedTokens: seq<Id>, cache: Cache) returns (logged: Option<Diagnostic>)
    requires cache.Valid()
    modifies cache
    ensures cache.Valid() && cache.invalidated == old(cache.invalidated)
    ensures Produced(old(cache.results), cache.results, TokensInput(selector), (d: Data) => RemoveDeleted(d, deletedTokens))
    ensures TokensInput(selector) in old(cache.results) ==> logged.None?
    ensures TokensInput(selector) !in old(cache.results) ==> ReportsMiss(logged, TokensInput(selector))
  {
    logged := UpdateQuery(cache, TokensInput(selector), (d: Data) => RemoveDeleted(d, deletedTokens));
  }

  /** deleteAlerts: on `ok`, invalidates the updated project. */
  method DeleteAlerts(result: Envelope<Id>, cache: Cache)
    requires cache.Valid()
    modifies cache
    ensures cache.Valid() && cache.results == old(cache.results)
    ensures cache.invalidated == old(cache.invalidated) + (if result.Ok? then {EntityKey("Project", result.ok)} else {})
  {
    if result.Ok? {
      cache.Invalidate(EntityKey("Project", result.ok));
    }
  }

  /** addAlertChannel: on `ok`, invalidates the updated project. */
  method AddAlertChannel(result: Envelope<Id>, cache: Cache)
    requires cache.Valid()
    modifies cache
    ensures cache.Valid() && cache.results == old(cache.results)
    ensures cache.invalidated == old(cache.invalidated) + (if result.Ok? then {EntityKey("Project", result.ok)} else {})
  {
    if !result.Ok? {
      return;
    }
    cache.Invalidate(EntityKey("Project", result.ok));
  }

  /** deleteAlertChannels: on `ok`, invalidates the updated project. */
  method DeleteAlertChannels(result: Envelope<Id>, cache: Cache)
    requires cache.Valid()
    modifies cache
    ensures cache.Valid() && cache.results == old(cache.results)
    ensures cache.invalidated == old(cache.invalidated) + (if result.Ok? then {EntityKey("Project", result.ok)} else {})
  {
    if result.Ok? {
      cache.Invalidate(EntityKey("Project", result.ok));
    }
  }

  /** addAlert: on `ok`, invalidates the updated project. */
  method AddAlert(result: Envelope<Id>, cache: Cache)
    requires cache.Valid()
    modifies cache
    ensures cache.Valid() && cache.results == old(cache.results)
    ensures cache.invalidated == old(cache.invalidated) + (if result.Ok? then {EntityKey("Project", result.ok)} else {})
  {
    if !result.Ok? {
      return;
    }
    cache.Invalidate(EntityKey("Project", result.ok));
  }

  /** deletePersistedOperation: invalidates the returned operation. */
  method DeletePersistedOperation(deletedPersistedOperation: EntityKey, cache: Cache)
    requires cache.Valid()
    modifies cache
    ensures cache.Valid() && cache.results == old(cache.results)
    ensures cache.invalidated == old(cache.invalidated) + {deletedPersistedOperation}
  {
    cache.Invalidate(deletedPersistedOperation);
  }

  /** `ok?.updatedTarget || {}`. */
  function UpdatedTargetOrEmpty(result: Envelope<Fields>): Fields {
    if result.Ok? then result.ok else map[]
  }

  /** The updater shared by the three collection resolvers: null stays null;
      otherwise `target` is shallow-merged with the updated target. */
  function CollectionUpdater(result: Envelope<Fields>): Option<Data> -> Option<Data> {
    (data: Option<Data>) => if data.None? then None else Some(MergeTarget(data.value, UpdatedTargetOrEmpty(result)))
  }

  /** deleteDocumentCollection: no `ok` check and no diagnostic; a cached collections
      result gets `target` merged with the updated target (with `{}` on
      error), every other field kept; a missing result stays missing. */
  method DeleteDocumentCollection(result: Envelope<Fields>, selector: SelectorInput, cache: Cache)
    requires cache.Valid()
    modifies cache
    ensures cache.Valid() && cache.invalidated == old(cache.invalidated)
    ensures Produced(old(cache.results), cache.results, CollectionsInput(selector),
                     (d: Data) => MergeTarget(d, UpdatedTargetOrEmpty(result)))
  {
    cache.UpdateQuery(CollectionsInput(selector), CollectionUpdater(result));
  }

  /** deleteOperationInDocumentCollection: no `ok` check and no diagnostic; a cached collections
      result gets `target` merged with the updated target (with `{}` on
      error), every other field kept; a missing result stays missing. */
  method DeleteOperationInDocumentCollection(result: Envelope<Fields>, selector: SelectorInput, cache: Cache)
    requires cache.Valid()
    modifies cache
    ensures cache.Valid() && cache.invalidated == old(cache.invalidated)
    ensures Produced(old(cache.results), cache.results, CollectionsInput(selector),
                     (d: Data) => MergeTarget(d, UpdatedTargetOrEmpty(result)))
  {
    cache.UpdateQuery(CollectionsInput(selector), CollectionUpdater(result));
  }

  /** createOperationInDocumentCollection: no `ok` check and no diagnostic; a cached collections
      result gets `target` merged with the updated target (with `{}` on
      error), every other field kept; a missing result stays missing. */
  method CreateOperationInDocumentCollection(result: Envelope<Fields>, selector: SelectorInput, cache: Cache)
    requires cache.Valid()
    modifies cache
    ensures cache.Valid() && cache.invalidated == old(cache.invalidated)
    ensures Produced(old(cache.results), cache.results, CollectionsInput(selector),
                     (d: Data) => MergeTarget(d, UpdatedTargetOrEmpty(result)))
  {
    cache.UpdateQuery(CollectionsInput(selector), CollectionUpdater(result));
  }

  // ---------------------------------------------------------------------
  // The registry

  /** The closed set of mutation field names with a registered resolver. */
  datatype MutationKind =
    | CreateOrganizationKind | DeleteOrganizationKind
    | CreateProjectKind | DeleteProjectKind
    | CreateTargetKind | DeleteTargetKind
    | CreateTokenKind | DeleteTokensKind
    | DeleteAlertsKind | AddAlertChannelKind | DeleteAlertChannelsKind | AddAlertKind
    | DeletePersistedOperationKind
    | DeleteDocumentCollectionKind | DeleteOperationInDocumentCollectionKind
    | CreateOperationInDocumentCollectionKind

  /** The field name each resolver is registered under in `Mutation`. */
  function FieldName(kind: MutationKind): string {
    match kind
    case CreateOrganizationKind => "createOrganization"
    case DeleteOrganizationKind => "deleteOrganization"
    case CreateProjectKind => "createProject"
    case DeleteProjectKind => "deleteProject"
    case CreateTargetKind => "createTarget"
    case DeleteTargetKind => "deleteTarget"
    case CreateTokenKind => "createToken"
    case DeleteTokensKind => "deleteTokens"
    case DeleteAlertsKind => "deleteAlerts"
    case AddAlertChannelKind => "addAlertChannel"
    case DeleteAlertChannelsKind => "deleteAlertChannels"
    case AddAlertKind => "addAlert"
    case DeletePersistedOperationKind => "deletePersistedOperation"
    case DeleteDocumentCollectionKind => "deleteDocumentCollection"
    case DeleteOperationInDocumentCollectionKind => "deleteOperationInDocumentCollection"
    case CreateOperationInDocumentCollectionKind => "createOperationInDocumentCollection"
  }

  /** The registry lookup by mutation field name. */
  function Lookup(fieldName: string): (r: Option<MutationKind>)
    ensures r.Some? ==> FieldName(r.value) == fieldName
  {
    if fieldName == "createOrganization" then Some(CreateOrganizationKind)
    else if fieldName == "deleteOrganization" then Some(DeleteOrganizationKind)
    else if fieldName == "createProject" then Some(CreateProjectKind)
    else if fieldName == "deleteProject" then Some(DeleteProjectKind)
    else if fieldName == "createTarget" then Some(CreateTargetKind)
    else if fieldName == "deleteTarget" then Some(DeleteTargetKind)
    else if fieldName == "createToken" then Some(CreateTokenKind)
    else if fieldName == "deleteTokens" then Some(DeleteTokensKind)
    else if fieldName == "deleteAlerts" then Some(DeleteAlertsKind)
    else if fieldName == "addAlertChannel" then Some(AddAlertChannelKind)
    else if fieldName == "deleteAlertChannels" then Some(DeleteAlertChannelsKind)
    else if fieldName == "addAlert" then Some(AddAlertKind)
    else if fieldName == "deletePersistedOperation" then Some(DeletePersistedOperationKind)
    else if fieldName == "deleteDocumentCollection" then Some(DeleteDocumentCollectionKind)
    else if fieldName == "deleteOperationInDocumentCollection" then Some(DeleteOperationInDocumentCollectionKind)
    else if fieldName == "createOperationInDocumentCollection" then Some(CreateOperationInDocumentCollectionKind)
    else None
  }

  /** Every resolver is found under its own field name, so no two kinds
      share a name. */
  lemma LookupFieldName(kind: MutationKind)
    ensures Lookup(FieldName(kind)) == Some(kind)
  {
  }

  /** A completed mutation: its kind's result payload and, for the
      collection resolvers, the `selector` argument. */
  datatype MutationResult =
    | CreateOrganizationResult(createOrganization: Envelope<Node>)
    | DeleteOrganizationResult(organization: EntityKey)
    | CreateProjectResult(createProject: Envelope<Id>)
    | DeleteProjectResult(deletedProject: EntityKey)
    | CreateTargetResult(createTarget: Envelope<CreatedTarget>)
    | DeleteTargetResult(deletedTarget: EntityKey)
    | CreateTokenResult(createToken: Envelope<CreatedToken>)
    | DeleteTokensResult(tokensSelector: Selector, deletedTokens: seq<Id>)
    | DeleteAlertsResult(deleteAlerts: Envelope<Id>)
    | AddAlertChannelResult(addAlertChannel: Envelope<Id>)
    | DeleteAlertChannelsResult(deleteAlertChannels: Envelope<Id>)
    | AddAlertResult(addAlert: Envelope<Id>)
    | DeletePersistedOperationResult(deletedPersistedOperation: EntityKey)
    | DeleteDocumentCollectionResult(deleteDocumentCollection: Envelope<Fields>, selector: SelectorInput)
    | DeleteOperationInDocumentCollectionResult(deleteOperation: Envelope<Fields>, selector: SelectorInput)
    | CreateOperationInDocumentCollectionResult(createOperation: Envelope<Fields>, selector: SelectorInput)

  /** The registered kind whose field a result belongs to. */
  function KindOf(m: MutationResult): MutationKind {
    match m
    case CreateOrganizationResult(_) => CreateOrganizationKind
    case DeleteOrganizationResult(_) => DeleteOrganizationKind
    case CreateProjectResult(_) => CreateProjectKind
    case DeleteProjectResult(_) => DeleteProjectKind
    case CreateTargetResult(_) => CreateTargetKind
    case DeleteTargetResult(_) => DeleteTargetKind
    case CreateTokenResult(_) => CreateTokenKind
    case DeleteTokensResult(_, _) => DeleteTokensKind
    case DeleteAlertsResult(_) => DeleteAlertsKind
    case AddAlertChannelResult(_) => AddAlertChannelKind
    case DeleteAlertChannelsResult(_) => DeleteAlertChannelsKind
    case AddAlertResult(_) => AddAlertKind
    case DeletePersistedOperationResult(_) => DeletePersistedOperationKind
    case DeleteDocumentCollectionResult(_, _) => DeleteDocumentCollectionKind
    case DeleteOperationInDocumentCollectionResult(_, _) => DeleteOperationInDocumentCollectionKind
    case CreateOperationInDocumentCollectionResult(_, _) => CreateOperationInDocumentCollectionKind
  }

  /** Which of the three things a resolver does with a given result:
      patch one cached query with a recipe (reporting a miss or not),
      invalidate one entity key, or nothing. */
  datatype Effect =
    | PatchQuery(input: QueryInput, recipe: Data -> Data, reportsMiss: bool)
    | InvalidateEntity(key: EntityKey)
    | NoEffect

  function EffectOf(m: MutationResult): Effect {
    match m
    case CreateOrganizationResult(r) =>
      PatchQuery(OrganizationsInput, (d: Data) => if r.Ok? then Unshift(d, r.ok) else d, true)
    case DeleteOrganizationResult(key) => InvalidateEntity(key)
    case CreateProjectResult(r) => if r.Ok? then InvalidateEntity(EntityKey("Organization", r.ok)) else NoEffect
    case DeleteProjectResult(key) => InvalidateEntity(key)
    case CreateTargetResult(r) =>
      if r.Ok? then PatchQuery(TargetsInput(r.ok.selector), (d: Data) => Unshift(d, r.ok.createdTarget), true) else NoEffect
    case DeleteTargetResult(key) => InvalidateEntity(key)
    case CreateTokenResult(r) =>
      if r.Ok? then PatchQuery(TokensInput(r.ok.selector), (d: Data) => Unshift(d, r.ok.createdToken), true) else NoEffect
    case DeleteTokensResult(selector, deleted) =>
      PatchQuery(TokensInput(selector), (d: Data) => RemoveDeleted(d, deleted), true)
    case DeleteAlertsResult(r) => if r.Ok? then InvalidateEntity(EntityKey("Project", r.ok)) else NoEffect
    case AddAlertChannelResult(r) => if r.Ok? then InvalidateEntity(EntityKey("Project", r.ok)) else NoEffect
    case DeleteAlertChannelsResult(r) => if r.Ok? then InvalidateEntity(EntityKey("Project", r.ok)) else NoEffect
    case AddAlertResult(r) => if r.Ok? then InvalidateEntity(EntityKey("Project", r.ok)) else NoEffect
    case DeletePersistedOperationResult(key) => InvalidateEntity(key)
    case DeleteDocumentCollectionResult(r, selector) =>
      PatchQuery(CollectionsInput(selector), (d: Data) => MergeTarget(d, UpdatedTargetOrEmpty(r)), false)
    case DeleteOperationInDocumentCollectionResult(r, selector) =>
      PatchQuery(CollectionsInput(selector), (d: Data) => MergeTarget(d, UpdatedTargetOrEmpty(r)), false)
    case CreateOperationInDocumentCollectionResult(r, selector) =>
      PatchQuery(CollectionsInput(selector), (d: Data) => MergeTarget(d, UpdatedTargetOrEmpty(r)), false)
  }

  /** The cache after a patch of `input`: no entry is added or removed and
      no other entry changes. */
  ghost predicate PatchedOnly(before: map<QueryInput, Data>, after: map<QueryInput, Data>, input: QueryInput) {
    && after.Keys == before.Keys
    && forall q :: q in before && q != input ==> after[q] == before[q]
  }

  /** A patch by any recipe touches only its own entry. */
  lemma ProducedPatchesOnly(before: map<QueryInput, Data>, after: map<QueryInput, Data>,
                            input: QueryInput, recipe: Data -> Data)
    requires Produced(before, after, input, recipe)
    ensures PatchedOnly(before, after, input)
  {
  }

  /** Runs the resolver registered under `fieldName` on that field's result
      (the cache only calls a resolver with the result of its own field). */
  method Resolve(fieldName: string, m: MutationResult, cache: Cache) returns (logged: Option<Diagnostic>)
    requires Lookup(fieldName) == Some(KindOf(m))
    requires cache.Valid()
    modifies cache
    ensures cache.Valid()
    ensures match EffectOf(m)
      case NoEffect =>
        cache.results == old(cache.results) && cache.invalidated == old(cache.invalidated) && logged.None?
      case InvalidateEntity(key) =>
        cache.results == old(cache.results) && cache.invalidated == old(cache.invalidated) + {key} && logged.None?
      case PatchQuery(input, recipe, reportsMiss) =>
        && cache.invalidated == old(cache.invalidated)
        && Produced(old(cache.results), cache.results, input, recipe)
        && (logged.Some? <==> reportsMiss && input !in old(cache.results))
  {
    logged := None;
    match m
    case CreateOrganizationResult(r) => logged := CreateOrganization(r, cache);
    case DeleteOrganizationResult(key) => DeleteOrganization(key, cache);
    case CreateProjectResult(r) => CreateProject(r, cache);
    case DeleteProjectResult(key) => DeleteProject(key, cache);
    case CreateTargetResult(r) => logged := CreateTarget(r, cache);
    case DeleteTargetResult(key) => DeleteTarget(key, cache);
    case CreateTokenResult(r) => logged := CreateToken(r, cache);
    case DeleteTokensResult(selector, deleted) => logged := DeleteTokens(selector, deleted, cache);
    case DeleteAlertsResult(r) => DeleteAlerts(r, cache);
    case AddAlertChannelResult(r) => AddAlertChannel(r, cache);
    case DeleteAlertChannelsResult(r) => DeleteAlertChannels(r, cache);
    case AddAlertResult(r) => AddAlert(r, cache);
    case DeletePersistedOperationResult(key) => DeletePersistedOperation(key, cache);
    case DeleteDocumentCollectionResult(r, selector) => DeleteDocumentCollection(r, selector, cache);
    case DeleteOperationInDocumentCollectionResult(r, selector) => DeleteOperationInDocumentCollection(r, selector, cache);
    case CreateOperationInDocumentCollectionResult(r, selector) => CreateOperationInDocumentCollection(r, selector, cache);
  }
}
