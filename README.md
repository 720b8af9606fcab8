# GraphQL Hive: cache update resolvers, operation filters, federation orchestrator

This project models three parts of GraphQL Hive in Dafny and proves what they promise.

**The cache update resolvers of the web app** (module `UrqlCache`, `urql_cache.dfy`).
When a mutation completes, the urql graph cache runs the resolver registered
under the mutation's field name. Each of the 16 resolvers does one of three things:

- It patches one cached query result: it prepends a node and adds one to `total`,
  or it filters nodes out and sets `total` to the list length,
  or it shallow-merges `target` into a collections result.
- It invalidates one entity key `(__typename, id)`.
- It does nothing.

The cache is a `Cache` class with two fields:

- `results`: cached query data keyed by (query, variables).
- `invalidated`: the set of invalidated entity keys.

It has `UpdateQuery` and `Invalidate` methods. Each resolver is a method. The
resolvers that branch on `ok` take an `ok | error` envelope; the others take
their payload as it is. The registry is a closed datatype of the 16 mutation kinds,
with a `Resolve` dispatcher. The model keeps the source's unevenness:

- Only some resolvers branch on `ok`.
- `createOrganization` calls `updateQuery` even on error.
- Insertion increments `total`, while deletion recounts it.

Diagnostics that the source writes with `console.error` are returned as an
out-parameter.

**The selection logic of the operations and clients filter drawers** (module
`OperationsFilters`, `filters.dfy`). It covers:

- the hash and client-name lists;
- the initial selection;
- the `onSelect` toggle and a row's `change`;
- the case-insensitive search;
- "All", "None" and Save, with Save collapsing an all-selected save to `[]`.

React state is plain values passed between functions.

**The federation orchestrator of the schema API** (module `Federation`,
`federation.dfy`). `createConfig` validates the external-composition setting.
`validate`, `build` and `supergraph` shape the request and call the remote schema
service. The service is a record of functions that may fail. Each call reports
the request it sent, if any, and its result, so "a configuration error means no
remote call" can be stated.

`seqs.dfy` (module `Seqs`) holds `Option` and the order-keeping `Filter` of
JavaScript arrays. Its lemmas cover membership, concatenation, keep-all and
duplicate-freedom.

The model follows the code, including its unevenness:

- Not every resolver leaves the cache alone when the mutation failed:
  - the four `delete*` invalidators (`deleteOrganization`, `deleteProject`,
    `deleteTarget`, `deletePersistedOperation`) read the key straight off
    their payload with no `ok` check;
  - `createOrganization` still runs `updateQuery`, so a miss is still reported;
  - the collection resolvers merge `{}` on error.
- Resolvers are not idempotent: a create run twice prepends twice.
- Invalidation only records the key. The model does not drop query results.

## Model

| member | source | states |
|---|---|---|
| `UrqlCache.GetOperationName` | packages/web/app/src/lib/urql-cache.ts:43-49 | the result is the name of the first operation definition, skipping other definitions; `None` when that operation is anonymous or when there is no operation |
| `UrqlCache.OperationNameUnique` | packages/web/app/src/lib/urql-cache.ts:43-49 | a document determines its operation name: two results that both satisfy getOperationName's contract are equal |
| `UrqlCache.Cache.UpdateQuery` | packages/web/app/src/lib/urql-cache.ts:52-61 | the cache's `updateQuery` hands the cached data, or null, to the updater. It writes back only a non-null answer. Nothing else changes, and the shape of cached data is kept |
| `UrqlCache.Cache.Invalidate` | packages/web/app/src/lib/urql-cache.ts:109-112 | adds exactly the given entity key to the invalidated set; cached results are unchanged |
| `UrqlCache.UpdateQuery` | packages/web/app/src/lib/urql-cache.ts:51-62 | with no cached data: the cache is unchanged, and the diagnostic carries the query's operation name and variables. Otherwise: the recipe's edit of the data is written, no diagnostic is logged, and the old value stays intact (value semantics) |
| `UrqlCache.Unshift` | packages/web/app/src/lib/urql-cache.ts:92-96 | the new node is at index 0 and the old nodes follow unchanged at index + 1; `total` is the old `total` + 1 |
| `UrqlCache.RemoveDeleted` | packages/web/app/src/lib/urql-cache.ts:235-242 | the kept nodes are exactly those whose id is not deleted, in the input's order (as `Filter`). `total` is the new list length |
| `UrqlCache.MergeTarget` | packages/web/app/src/lib/urql-cache.ts:312-319 | the other top-level fields are kept. `target` keeps every old key, adds the updated keys, and takes the updated values where both have a key |
| `UrqlCache.MergeNothing` | packages/web/app/src/lib/urql-cache.ts:317 | merging `{}` (the error case) leaves the cached data unchanged |
| `UrqlCache.UnshiftTwiceIsNotUnshiftOnce` | packages/web/app/src/lib/urql-cache.ts:209-212 | prepending the same node twice differs from prepending it once, and `total` grows by 2: the create resolvers are not idempotent |
| `UrqlCache.RemoveAfterUnshift` | packages/web/app/src/lib/urql-cache.ts:235-242 | deleting a just-prepended node restores the old nodes, but `total` becomes the old list length, not the old `total` |
| `UrqlCache.DeleteTokensExample` | packages/web/app/src/lib/urql-cache.ts:235-242 | tokens `[t1,t2,t3,t4]` with total 4, minus `t1` and `t3`, give `[t2,t4]` with total 2 |
| `UrqlCache.DeletionDoesNotDecrement` | packages/web/app/src/lib/urql-cache.ts:241 | with a stale `total` of 5 over two nodes, deleting one node gives `total` 1, not 4 |
| `UrqlCache.CreateOrganization` | packages/web/app/src/lib/urql-cache.ts:80-100 | always patches the organizations query and reports a miss when nothing is cached. On `ok` the new organization is prepended and `total` grows by 1. On error the cached results are unchanged |
| `UrqlCache.DeleteOrganization` | packages/web/app/src/lib/urql-cache.ts:102-113 | invalidates the returned `(__typename, id)` unconditionally; results unchanged |
| `UrqlCache.CreateProject` | packages/web/app/src/lib/urql-cache.ts:115-128 | invalidates `("Organization", updatedOrganization.id)` exactly when `ok`; results unchanged |
| `UrqlCache.DeleteProject` | packages/web/app/src/lib/urql-cache.ts:130-141 | invalidates the returned project's key unconditionally |
| `UrqlCache.CreateTarget` | packages/web/app/src/lib/urql-cache.ts:143-172 | on error: no cache change and no diagnostic. On `ok`: the target is prepended to the targets list of (organization, project) and `total` grows by 1; a miss is reported when nothing is cached |
| `UrqlCache.DeleteTarget` | packages/web/app/src/lib/urql-cache.ts:174-185 | invalidates the returned target's key unconditionally |
| `UrqlCache.CreateToken` | packages/web/app/src/lib/urql-cache.ts:187-214 | on error: no cache change and no diagnostic. On `ok`: the token is prepended to the tokens list of (organization, project, target) and `total` grows by 1; a miss is reported when nothing is cached |
| `UrqlCache.DeleteTokens` | packages/web/app/src/lib/urql-cache.ts:216-244 | with no `ok` check, removes the deleted ids from the selected tokens list and recounts `total`; a miss is reported when nothing is cached |
| `UrqlCache.DeleteAlerts` | packages/web/app/src/lib/urql-cache.ts:69-78 | invalidates `("Project", updatedProject.id)` exactly when `ok` |
| `UrqlCache.AddAlertChannel` | packages/web/app/src/lib/urql-cache.ts:246-258 | invalidates `("Project", updatedProject.id)` exactly when `ok` |
| `UrqlCache.DeleteAlertChannels` | packages/web/app/src/lib/urql-cache.ts:259-268 | invalidates `("Project", updatedProject.id)` exactly when `ok` |
| `UrqlCache.AddAlert` | packages/web/app/src/lib/urql-cache.ts:269-283 | invalidates `("Project", updatedProject.id)` exactly when `ok` |
| `UrqlCache.DeletePersistedOperation` | packages/web/app/src/lib/urql-cache.ts:284-293 | invalidates the returned operation's key unconditionally |
| `UrqlCache.DeleteDocumentCollection` | packages/web/app/src/lib/urql-cache.ts:295-322 | a cached collections result of `args.selector` gets `target` merged with `ok.updatedTarget`, or with `{}` on error. A missing result stays missing, and no diagnostic is logged |
| `UrqlCache.DeleteOperationInDocumentCollection` | packages/web/app/src/lib/urql-cache.ts:324-349 | the same merge as `DeleteDocumentCollection`, with this mutation's `ok.updatedTarget` |
| `UrqlCache.CreateOperationInDocumentCollection` | packages/web/app/src/lib/urql-cache.ts:351-376 | the same merge as `DeleteDocumentCollection`, with this mutation's `ok.updatedTarget` |
| `UrqlCache.Lookup` | packages/web/app/src/lib/urql-cache.ts:379-396 | a field name found in the registry maps to the kind registered under that name |
| `UrqlCache.LookupFieldName` | packages/web/app/src/lib/urql-cache.ts:379-396 | every one of the 16 kinds is found under its own field name, so no two kinds share a name |
| `UrqlCache.Resolve` | packages/web/app/src/lib/urql-cache.ts:379-396 | run under its registered field name, each mutation does exactly one of three things. A patch applies that mutation's own recipe to the one cached result it targets and leaves every other entry alone. The recipes are: prepend and count for the three creates, which check `ok` in the organizations recipe; filter and recount for deleteTokens; merge `target` for the collection resolvers. Only a miss of a resolver that goes through the module's helper is reported. An invalidation adds exactly one key. Otherwise nothing changes |
| `UrqlCache.ProducedPatchesOnly` | packages/web/app/src/lib/urql-cache.ts:51-62 | a patch made through `updateQuery`, whatever its recipe, adds or removes no cached entry and changes no other entry |
| `OperationsFilters.HashesOf` | packages/web/app/src/components/target/operations/Filters.tsx:41-49 | a hash is listed exactly when some node carries it non-empty; no empty hash; no more hashes than nodes |
| `OperationsFilters.HashesOfAppend` | packages/web/app/src/components/target/operations/Filters.tsx:43-47 | the hashes of a concatenation are the hashes of each part, in node order |
| `OperationsFilters.GetOperationHashes` | packages/web/app/src/components/target/operations/Filters.tsx:41-49 | the loop that pushes truthy hashes returns exactly `HashesOf(nodes)` |
| `OperationsFilters.GetClientNames` | packages/web/app/src/components/target/operations/Filters.tsx:369-371 | one name per client, in client order |
| `OperationsFilters.InitialSelection` | packages/web/app/src/components/target/operations/Filters.tsx:51-53 | the given selection when non-empty, otherwise all hashes (or all client names) |
| `OperationsFilters.FindIndex` | packages/web/app/src/components/target/operations/Filters.tsx:57-58 | -1 exactly when the hash is absent; otherwise the first position holding it |
| `OperationsFilters.OnSelect` | packages/web/app/src/components/target/operations/Filters.tsx:55-67 | afterwards the hash is selected exactly when `selected` is true. Other hashes keep their membership. Checking an already-selected hash, or unchecking one that is not selected, leaves the list unchanged. Otherwise checking appends the hash, and unchecking is the order-keeping removal of every occurrence |
| `OperationsFilters.OnSelectKeepsNoDup` | packages/web/app/src/components/target/operations/Filters.tsx:60-64 | a duplicate-free selection stays duplicate-free |
| `OperationsFilters.OnSelectRoundTrip` | packages/web/app/src/components/target/operations/Filters.tsx:60-64 | checking then unchecking a hash that was not selected restores the selection exactly |
| `OperationsFilters.RowChange` | packages/web/app/src/components/target/operations/Filters.tsx:255-259 | an empty hash changes nothing; otherwise the row calls `onSelect(hash, !selected)`, so the hash ends up selected exactly when the row was not, and no other hash changes |
| `OperationsFilters.RowClickFlips` | packages/web/app/src/components/target/operations/Filters.tsx:105 | clicking a rendered row, whose checkbox shows `includes(hash)`, flips that hash's membership and nothing else |
| `OperationsFilters.Search` | packages/web/app/src/components/target/operations/Filters.tsx:69-75 | a row is visible exactly when its lowercased name contains the lowercased term |
| `OperationsFilters.SearchKeepsOrder` | packages/web/app/src/components/target/operations/Filters.tsx:71-73 | search distributes over concatenation, so visible rows keep the original order |
| `OperationsFilters.SearchEmptyTermKeepsAll` | packages/web/app/src/components/target/operations/Filters.tsx:68-87 | an empty term shows every row |
| `OperationsFilters.SaveSelection` | packages/web/app/src/components/target/operations/Filters.tsx:225-227 | a selection as long as the total, or as the client count, is saved as `[]`; any other selection is saved as it is |
| `OperationsFilters.Save` | packages/web/app/src/components/target/operations/Filters.tsx:138-145 | Save sends nothing exactly when the selection is empty, and otherwise sends the collapsed selection |
| `OperationsFilters.SaveEmptyMeansAll` | packages/web/app/src/components/target/operations/Filters.tsx:551-553 | a save that sends `[]` came from a non-empty selection as long as the whole list |
| `OperationsFilters.CollapseIffAllSelected` | packages/web/app/src/components/target/operations/Filters.tsx:551-553 | take duplicate-free names and a duplicate-free selection drawn from them: the save collapses to `[]` exactly when every name is selected |
| `OperationsFilters.SelectAll` | packages/web/app/src/components/target/operations/Filters.tsx:89-91 | "All" resets the selection to the hash list `getOperationHashes` builds: the truthy hashes of the nodes, in node order with repeats kept |
| `OperationsFilters.SelectNone` | packages/web/app/src/components/target/operations/Filters.tsx:92-94 | "None" yields a selection that Save never sends, whatever the list length |
| `Seqs.Filter` | packages/web/app/src/lib/urql-cache.ts:236-240 | the result holds exactly the input elements the predicate keeps, and is no longer than the input |
| `Seqs.FilterAppend` | packages/web/app/src/lib/urql-cache.ts:236-240 | filtering distributes over concatenation, so kept elements keep their relative order |
| `Seqs.FilterKeepsAll` | packages/web/app/src/components/target/operations/Filters.tsx:63 | a filter that rejects nothing returns its input |
| `Seqs.FilterNoDup` | packages/web/app/src/components/target/operations/Filters.tsx:63 | a filter of a duplicate-free sequence is duplicate-free |
| `Federation.CreateConfig` | packages/services/api/src/modules/schema/providers/orchestrators/federation.ts:45-62 | null when the setting is absent or disabled. When it is enabled, a missing endpoint fails first, whatever the secret. Then a missing `encryptedSecret` fails. An accepted config is exactly the setting's non-empty endpoint and secret |
| `Federation.CreateConfigAccepts` | packages/services/api/src/modules/schema/providers/orchestrators/federation.ts:55-58 | an enabled setting with both fields present yields exactly `(endpoint, encryptedSecret)` |
| `Federation.ShapeSchemas` | packages/services/api/src/modules/schema/providers/orchestrators/federation.ts:70-73 | one `(raw, source)` per schema, in input order, with no url |
| `Federation.UrlOrNull` | packages/services/api/src/modules/schema/providers/orchestrators/federation.ts:119 | the url is sent when truthy; otherwise null |
| `Federation.ShapeSupergraphSchemas` | packages/services/api/src/modules/schema/providers/orchestrators/federation.ts:116-120 | one `(raw, source, url)` per schema, in input order, with a falsy url sent as null |
| `Federation.Validate` | packages/services/api/src/modules/schema/providers/orchestrators/federation.ts:64-78 | a configuration error means no request is sent and the error surfaces unwrapped. Otherwise the shaped request is sent, the service's `errors` are returned as they are, and its failures are not wrapped |
| `Federation.Build` | packages/services/api/src/modules/schema/providers/orchestrators/federation.ts:80-105 | every failure is a `SchemaBuildError`: a configuration error (with no request sent) or a service failure, wrapped with the original as its cause. A success returns the service's answer |
| `Federation.Supergraph` | packages/services/api/src/modules/schema/providers/orchestrators/federation.ts:107-125 | a configuration error means no request is sent. Otherwise the url-carrying request is sent, `supergraph` is returned, and failures are not wrapped |
| `Federation.BuildWithoutSecret` | packages/services/api/src/modules/schema/providers/orchestrators/federation.ts:47-53 | enabled with an endpoint but no secret: no build request, and a `SchemaBuildError` wrapping "encryptedSecret is missing" |

## Left out

- The urql graph cache library: normalisation, cascading invalidation and query-document matching are not shown. They are modelled only as the result map and the invalidated-key set. An invalidated key therefore does not drop the query results that embed it.
- Immer: `produce` is modelled as a pure function on immutable values. Copy-then-edit holds by value semantics.
- The query documents of the organizations, tokens and collections queries are defined in files that are not part of this model. Their operation names in `DocumentOf` are placeholders. Only the targets document is spelled out.
- `console.error`: the model returns the diagnostic (operation name and variables) instead of printing it.
- The `as any` masking casts, and TypeScript's typing of the cached data. Cached data is restricted instead to the shape its query demands (`Cache.Valid`).
- `total` is an unbounded integer. JavaScript's number precision is not modelled.
- React rendering in Filters.tsx: the drawer, the virtualised list, hooks mechanics, the 500 ms debounce and number formatting. `toLocaleLowerCase` is a parameter (`lower`), so locale rules are not modelled.
- The operations and clients drawers are modelled once. Their selection, search and save code differs in three ways, each kept by the model:
  - The node type differs; `Search` is generic over the row type.
  - The save collapse compares against `operations.total` (Filters.tsx:226) or against the number of clients (Filters.tsx:552); `SaveSelection` takes that count as `allCount`.
  - The hash list drops falsy hashes (`HashesOf`, Filters.tsx:44), while client names are taken as they are (`GetClientNames`, Filters.tsx:370).
- `MergeTarget`: the collections result's `target` is a map, so it is never null. A null `target` is not represented. The source would turn it into `{}` or into the updated target, and `MergeNothing` would not hold for it. A null `updatedTarget` in an `ok` payload is not represented either. The source's `|| {}` treats it like an error.
- In federation.ts: the tRPC client, HTTP transport, the `x-request-id` header, the logger, the sentry decorators and async scheduling. The schema service is a record of functions that may fail.
- `parse(result.raw)` in `build`: GraphQL parsing is not modelled. A parse failure, which the source would also wrap in `SchemaBuildError`, is not represented. The built schema is returned as its `raw` and `source`.
- packages/web/app/src/components/schema-editor.ts is not part of this model. It only configures an editor loader.
