# react-query visitor model

This project models the decision logic of the react-query plugin of GraphQL Code
Generator: the `ReactQueryVisitor` class in
`packages/plugins/typescript/react-query/src/visitor.ts`. The visitor turns GraphQL
operations into react-query hooks. The model covers four things:

- **Fetcher selection.** The `fetcher` option picks one of four renderers: `fetch`,
  a hard-coded endpoint, the `graphql-request` client, or a custom mapper. A missing
  or falsy option falls back to `'fetch'`. The first matching rule wins, and the
  custom mapper takes whatever is left.
- **Type-name prefix.** When `importOperationTypesFrom` is set, its value followed by
  a dot is put before every result type name and variables type name.
- **Per-operation dispatch.** A query goes to the query-hook generator and a mutation
  to the mutation-hook generator. A subscription is skipped with a warning that names
  it. Any other kind yields nothing.
- **Import list.** `getImports` returns the base imports unchanged while no operation
  has been collected. Otherwise it appends exactly one line,
  `import { … } from 'react-query';`. That line lists the identifiers in use, in
  insertion order, joined by `", "`.

Modules:

- `Fetchers` (fetchers.dfy) holds the `fetcher` option, the strategies, their
  selection, and the hook-generator calls.
- `Identifiers` (identifiers.dfy) describes the insertion-ordered set of identifiers.
  Its meaning is given by `FirstOccurrences`, which keeps an element only when it
  does not occur earlier.
- `ImportText` (import_text.dfy) holds the joined list, its inverse `Split`, and the
  import line with its parser.
- `Visitor` (visitor.dfy) holds the prefix, the dispatch and the `ReactQueryVisitor`
  class.

The hook generators live in the strategy files, which are not part of this model. A
generated hook fragment is therefore represented by the generator call that renders
it: the strategy, the generator (query or mutation) and the arguments passed.

The class keeps a ghost log of every identifier ever added. Its invariant `Valid()`
says that the set in use equals `FirstOccurrences` of that log. The lemmas about
`FirstOccurrences` then give the promised properties of the set: each identifier
appears once, the order is first-insertion order, and the set only grows.

Three behaviours of the code are easy to misread:

- The hard-coded strategy is bound to the whole configuration object, not only to its
  endpoint (visitor.ts:48).
- A `null` or missing option selects `fetch`, because of the default applied in the
  constructor (visitor.ts:35). It does not reach the custom mapper.
- `getImports` tests only whether any operation was collected (visitor.ts:58), and
  subscriptions are collected too. So a run made only of subscriptions still gets an
  import line, with empty braces.

## Model

| member | source | states |
|---|---|---|
| `Fetchers.WithDefault` | packages/plugins/typescript/react-query/src/visitor.ts:35 | the value handed to selection is never missing or falsy; a falsy option becomes `'fetch'`, a truthy one is kept as is |
| `Fetchers.CreateFetcher` | packages/plugins/typescript/react-query/src/visitor.ts:44-54 | selection is total, and each strategy is chosen exactly when its own test passes and no earlier test did (`'fetch'`, then an object with a non-empty endpoint, then `'graphql-request'`, then the custom mapper); the hard-coded strategy keeps the same config object and the custom mapper keeps the raw value |
| `Fetchers.MissingFetcherSelectsFetch` | packages/plugins/typescript/react-query/src/visitor.ts:35-46 | a missing or falsy `fetcher` option selects the Fetch strategy |
| `Fetchers.EmptyEndpointFallsThroughToCustomMapper` | packages/plugins/typescript/react-query/src/visitor.ts:47-53 | an object whose endpoint is empty or missing selects the custom mapper, bound to that object, and not the hard-coded fetcher |
| `Fetchers.SelectionByShape` | packages/plugins/typescript/react-query/src/visitor.ts:35-54 | the strategy the constructor selects for each shape of the option (object with or without an endpoint, non-empty string); the custom mapper never receives a missing value |
| `Identifiers.FirstOccurrences` | packages/plugins/typescript/react-query/src/visitor.ts:22 | the set holds exactly the identifiers ever added, without duplicates |
| `Identifiers.FirstOccurrencesSnoc` | packages/plugins/typescript/react-query/src/visitor.ts:22 | adding an identifier already present leaves the set unchanged; adding a new one puts it last |
| `Identifiers.FirstOccurrencesInInsertionOrder` | packages/plugins/typescript/react-query/src/visitor.ts:64 | the set lists its identifiers in the order of their first insertion |
| `Identifiers.FirstOccurrencesGrows` | packages/plugins/typescript/react-query/src/visitor.ts:22 | the set only grows: what it lists stays listed, in the same order and first, after further additions |
| `Identifiers.FirstOccurrencesOfDistinct` | packages/plugins/typescript/react-query/src/visitor.ts:22 | adding distinct identifiers keeps all of them, in the order added |
| `Identifiers.FirstOccurrencesExtend` | packages/plugins/typescript/react-query/src/visitor.ts:22 | adding further identifiers keeps the old listing first, and the set then holds exactly the old members and the added ones |
| `ImportText.Join` | packages/plugins/typescript/react-query/src/visitor.ts:64 | `join(', ')`: the empty list gives the empty string; otherwise the text starts with the first identifier and ends with the last |
| `ImportText.ImportLine` | packages/plugins/typescript/react-query/src/visitor.ts:64 | the line is `import { ` followed by the joined identifiers and ` } from 'react-query';`, with the joined list exactly between the two |
| `ImportText.SplitJoin` | packages/plugins/typescript/react-query/src/visitor.ts:64 | splitting at `", "` gives back the joined list of comma-free, non-empty names |
| `ImportText.ImportLineRoundTrip` | packages/plugins/typescript/react-query/src/visitor.ts:64 | the react-query import line reads back as exactly the identifiers it was built from, in their order (empty braces for an empty list) |
| `Visitor.ImportPrefix` | packages/plugins/typescript/react-query/src/visitor.ts:33 | the prefix is empty exactly when `importOperationTypesFrom` is unset; otherwise it is that alias followed by one dot |
| `Visitor.SubscriptionWarning` | packages/plugins/typescript/react-query/src/visitor.ts:100-102 | the subscription warning quotes the operation's name, which can be read back from it |
| `Visitor.Dispatch` | packages/plugins/typescript/react-query/src/visitor.ts:79-105 | a hook exactly for Query and Mutation, through the query or mutation generator respectively, with both type names prefixed and the node, document variable name and required-variables flag unchanged; skipped with a warning naming the operation exactly for Subscription; nothing for any other kind |
| `Visitor.PrefixChangesOnlyTypeNames` | packages/plugins/typescript/react-query/src/visitor.ts:79-97 | setting `importOperationTypesFrom` changes only the two type names of each hook, each by the same prefix |
| `Visitor.StrategyChangesOnlyRenderer` | packages/plugins/typescript/react-query/src/visitor.ts:82-97 | switching the strategy changes only which renderer produces each hook, not whether there is one, which generator is used, or its arguments |
| `Visitor.ReactQueryVisitor.constructor` | packages/plugins/typescript/react-query/src/visitor.ts:24-38 | the prefix is computed from `importOperationTypesFrom`; the strategy is selected from the defaulted `fetcher`; documents are stored; the identifier set starts empty |
| `Visitor.ReactQueryVisitor.UseIdentifier` | packages/plugins/typescript/react-query/src/visitor.ts:22 | `Set.add`: unchanged if present, appended otherwise; the set only grows and stays the first occurrences of everything added |
| `Visitor.ReactQueryVisitor.CollectOperation` | packages/plugins/typescript/react-query/src/visitor.ts:58 | each visited operation is recorded, whatever its kind |
| `Visitor.ReactQueryVisitor.GetImports` | packages/plugins/typescript/react-query/src/visitor.ts:56-65 | with no collected operation, exactly the base imports; otherwise the base imports followed by exactly one line, which names the first occurrences of all identifiers added, in order |
| `Visitor.ReactQueryVisitor.BuildOperation` | packages/plugins/typescript/react-query/src/visitor.ts:71-106 | prefixes both type names with the visitor's own prefix and dispatches to the visitor's own strategy, as `Dispatch` describes; the identifiers the called generator registers are added to the set in use (which only grows and then holds exactly the old identifiers plus those), and a skipped or ignored operation adds none |
| `Visitor.ImportedIdentifiersAreDistinctAndOrdered` | packages/plugins/typescript/react-query/src/visitor.ts:64 | any two identifiers of the import list are distinct, and the earlier one was added first |

## Left out

- The text of the hooks, and of the shared fetcher implementation, comes from the four strategy files (fetcher-fetch.ts, fetcher-fetch-hardcoded.ts, fetcher-graphql-request.ts, fetcher-custom-mapper.ts). Those files are not part of this model, so a hook is represented by the `HookCall` that renders it.
- The hook generators register identifiers such as `useQuery` inside those strategy files. `BuildOperation` takes the identifiers the called generator registers as a parameter and adds them through `UseIdentifier`. The model does not fix which identifiers each generator adds, nor where in its work it adds them.
- `getFetcherImplementation` (visitor.ts:67-69) only delegates to the strategy's `generateFetcherImplementaion`, which is not part of this model.
- The `imports` getter (visitor.ts:40-42) returns state of the base visitor, which is not part of this model.
- `super(...)` and `super.getImports()` belong to `ClientSideBaseVisitor`, which is not part of this model. The base imports are a parameter of `GetImports`, and the base visitor's recording of operations is `CollectOperation`.
- `console.warn` is I/O. The warning text is returned in the `Skipped` result instead.
- `autoBind`, the GraphQL schema, the fragments, and the operation node apart from its name are left out. They are framework plumbing that none of this logic reads.
- `Fetchers.CreateFetcher`: models the option only as missing, string, or object with an endpoint. Falsy values of other types (`0`, `NaN`, `false`) behave like `Absent`: they become `'fetch'` at visitor.ts:35 and select Fetch. Truthy values that are neither strings nor objects reach the custom mapper, as the other strings do. Other fields of the object (such as `fetchParams`) do not affect selection. They are not modelled, so the `HardcodedFetch` binding does not carry them.
- `Fetchers.CreateFetcher`: in JavaScript, `createFetcher(null)` throws at `raw.endpoint`. The model maps a missing value to the custom mapper, as it does for `undefined`. The only caller never passes either, because of the default at visitor.ts:35.
- `ImportText.ImportLineRoundTrip`: stated only for identifiers that are non-empty and contain no comma. With a name like `a, b` the joined list cannot be read back unambiguously.
- Running the visitor twice on the same input gives the same output. This holds because every member is a deterministic function of its inputs, and it is not stated as a separate lemma.
