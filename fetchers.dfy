/**
 * The `fetcher` configuration value, the four code-generation strategies it
 * can select, and the calls the visitor makes on the selected strategy.
 */
module Fetchers {

  /** The raw `fetcher` option as a user writes it: missing (`undefined` or
      `null`), a string, or an object carrying an `endpoint`. An object whose
      `endpoint` property is missing has `endpoint == ""` here: in both cases
      the property is falsy. */
  datatype FetcherConfig = Absent | Str(s: string) | Obj(endpoint: string)

  /** The four fetcher renderers. The hard-coded variant keeps the very
      configuration object it was selected by; the custom mapper keeps the raw
      value, which it treats as the name or path of a user-supplied fetcher. */
  datatype Strategy =
    | Fetch
    | HardcodedFetch(config: FetcherConfig)
    | GraphQLRequest
    | CustomMapper(raw: FetcherConfig)

  /** JavaScript truthiness of the option: `undefined`, `null` and `''` are
      falsy, every object is truthy. */
  predicate IsFalsy(raw: FetcherConfig) {
    raw.Absent? || raw == Str("")
  }

  /** `rawConfig.fetcher || 'fetch'`: the value the constructor hands to
      `CreateFetcher`. It is never missing nor empty. */
  function WithDefault(raw: FetcherConfig): (r: FetcherConfig)
    ensures !IsFalsy(r) && !r.Absent?
    ensures IsFalsy(raw) ==> r == Str("fetch")
    ensures !IsFalsy(raw) ==> r == raw
  {
    if IsFalsy(raw) then Str("fetch") else raw
  }

  /** An object that carries a truthy (non-empty) endpoint. */
  predicate HasEndpoint(raw: FetcherConfig) {
    raw.Obj? && raw.endpoint != ""
  }

  /** Strategy selection, first match wins: the string 'fetch', then an object
      with a truthy endpoint, then the string 'graphql-request', and the custom
      mapper for everything else. It never fails. Each strategy is described
      in both directions: it is chosen exactly when its own test passes and no
      earlier test did. */
  function CreateFetcher(raw: FetcherConfig): (s: Strategy)
    ensures s == Fetch <==> raw == Str("fetch")
    ensures s.HardcodedFetch? <==> raw != Str("fetch") && HasEndpoint(raw)
    ensures s == GraphQLRequest <==>
              raw != Str("fetch") && !HasEndpoint(raw) && raw == Str("graphql-request")
    ensures s.CustomMapper? <==>
              raw != Str("fetch") && !HasEndpoint(raw) && raw != Str("graphql-request")
    ensures s.HardcodedFetch? ==> s.config == raw
    ensures s.CustomMapper? ==> s.raw == raw
  {
    if raw == Str("fetch") then Fetch
    else if HasEndpoint(raw) then HardcodedFetch(raw)
    else if raw == Str("graphql-request") then GraphQLRequest
    else CustomMapper(raw)
  }

  /** A missing or falsy option selects the plain `fetch` strategy. */
  lemma MissingFetcherSelectsFetch(raw: FetcherConfig)
    requires IsFalsy(raw)
    ensures CreateFetcher(WithDefault(raw)) == Fetch
  {
  }

  /** An object whose endpoint is empty or missing is not a hard-coded
      endpoint: it falls through to the custom mapper, which keeps the object. */
  lemma EmptyEndpointFallsThroughToCustomMapper()
    ensures CreateFetcher(WithDefault(Obj(""))) == CustomMapper(Obj(""))
  {
  }

  /** What the constructor's selection yields for each shape of the option. */
  lemma SelectionByShape(raw: FetcherConfig)
    ensures raw.Obj? ==>
      CreateFetcher(WithDefault(raw)) ==
        (if raw.endpoint != "" then HardcodedFetch(raw) else CustomMapper(raw))
    ensures raw.Str? && raw.s != "" ==>
      CreateFetcher(WithDefault(raw)) ==
        (if raw.s == "fetch" then Fetch
         else if raw.s == "graphql-request" then GraphQLRequest
         else CustomMapper(raw))
    ensures !CreateFetcher(WithDefault(raw)).CustomMapper? ||
            CreateFetcher(WithDefault(raw)).raw != Absent
  {
  }

  /** The operation's syntax node; only its name is modelled. */
  datatype OperationNode = OperationNode(name: string)

  /** The two hook generators every strategy offers. */
  datatype HookKind = QueryHook | MutationHook

  /** One call to a strategy's hook generator, standing for the hook source
      text it returns: which strategy renders it, which generator, and the
      arguments passed (the operation's node, the name of the variable holding
      its document, its result and variables type names, and whether it has
      required variables). */
  datatype HookCall = HookCall(
    strategy: Strategy,
    kind: HookKind,
    node: OperationNode,
    documentVariableName: string,
    resultType: string,
    variablesType: string,
    hasRequiredVariables: bool)
}
