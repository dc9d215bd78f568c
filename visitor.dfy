/**
 * The react-query visitor: it selects the fetcher strategy and the type-name
 * prefix once, dispatches every operation to the strategy's query or mutation
 * hook generator, and computes the import list after all operations.
 */
module Visitor {

  import opened Wrappers
  import opened Fetchers
  import opened Identifiers
  import opened ImportText

  /** The two options this visitor reads itself; every other option belongs to
      the generic client-side base visitor. An unset `importOperationTypesFrom`
      is the empty string: both are falsy. */
  datatype RawConfig = RawConfig(fetcher: FetcherConfig, importOperationTypesFrom: string)

  /** What `buildOperation` yields: the hook source fragment (stood for by the
      generator call that renders it), or no fragment, with a warning when the
      operation was a subscription. */
  datatype BuildOutput = Hook(call: HookCall) | Skipped(warning: string) | NoHook

  /** The prefix put before result and variables type names: the module alias
      followed by a dot when `importOperationTypesFrom` is set, otherwise none. */
  function ImportPrefix(importOperationTypesFrom: string): (prefix: string)
    ensures prefix == "" <==> importOperationTypesFrom == ""
    ensures prefix != "" ==>
              prefix[..|prefix| - 1] == importOperationTypesFrom && prefix[|prefix| - 1] == '.'
  {
    if importOperationTypesFrom != "" then importOperationTypesFrom + "." else ""
  }

  const WarningHead := "Plugin \"typescript-react-query\" does not support GraphQL Subscriptions at the moment! Ignoring \""
  const WarningTail := "\"..."

  /** The warning emitted for a subscription; it quotes the operation's name. */
  function SubscriptionWarning(name: string): (w: string)
    ensures |w| == |WarningHead| + |name| + |WarningTail|
    ensures w[|WarningHead|..|w| - |WarningTail|] == name
  {
    WarningHead + name + WarningTail
  }

  /** The dispatch `buildOperation` performs with a given prefix and strategy:
      the type names are prefixed, everything else passes through unchanged;
      a query goes to the query-hook generator, a mutation to the
      mutation-hook generator, a subscription is skipped with a warning naming
      it, and any other kind yields nothing. */
  function Dispatch(
    prefix: string, fetcher: Strategy,
    node: OperationNode, documentVariableName: string, operationType: string,
    operationResultType: string, operationVariablesTypes: string,
    hasRequiredVariables: bool): (out: BuildOutput)
    ensures out.Hook? <==> operationType == "Query" || operationType == "Mutation"
    ensures out.Skipped? <==> operationType == "Subscription"
    ensures out.Hook? ==>
              out.call == HookCall(fetcher, if operationType == "Query" then QueryHook else MutationHook,
                                   node, documentVariableName,
                                   prefix + operationResultType, prefix + operationVariablesTypes,
                                   hasRequiredVariables)
    ensures out.Skipped? ==> out.warning == SubscriptionWarning(node.name)
  {
    var resultType := prefix + operationResultType;
    var variablesTypes := prefix + operationVariablesTypes;
    if operationType == "Query" then
      Hook(HookCall(fetcher, QueryHook, node, documentVariableName,
                    resultType, variablesTypes, hasRequiredVariables))
    else if operationType == "Mutation" then
      Hook(HookCall(fetcher, MutationHook, node, documentVariableName,
                    resultType, variablesTypes, hasRequiredVariables))
    else if operationType == "Subscription" then
      Skipped(SubscriptionWarning(node.name))
    else
      NoHook
  }

  /** The same output with `prefix` put before both type names of a hook. */
  function PrefixTypes(out: BuildOutput, prefix: string): BuildOutput {
    match out
    case Hook(c) =>
      Hook(c.(resultType := prefix + c.resultType, variablesType := prefix + c.variablesType))
    case _ => out
  }

  /** The same output rendered by another strategy. */
  function RenderedBy(out: BuildOutput, fetcher: Strategy): BuildOutput {
    match out
    case Hook(c) => Hook(c.(strategy := fetcher))
    case _ => out
  }

  /** Setting `importOperationTypesFrom` changes only the two type names of
      every hook, each by the same prefix; nothing else of the output. */
  lemma PrefixChangesOnlyTypeNames(
    importOperationTypesFrom: string, fetcher: Strategy,
    node: OperationNode, documentVariableName: string, operationType: string,
    operationResultType: string, operationVariablesTypes: string,
    hasRequiredVariables: bool)
    ensures
      var prefix := ImportPrefix(importOperationTypesFrom);
      Dispatch(prefix, fetcher, node, documentVariableName, operationType,
               operationResultType, operationVariablesTypes, hasRequiredVariables)
      == PrefixTypes(Dispatch("", fetcher, node, documentVariableName, operationType,
                              operationResultType, operationVariablesTypes, hasRequiredVariables),
                     prefix)
  {
  }

  /** Strategies are interchangeable: switching the fetcher changes only which
      strategy renders each hook, never whether there is one, its generator,
      or the arguments it receives. */
  lemma StrategyChangesOnlyRenderer(
    prefix: string, fetcher: Strategy, other: Strategy,
    node: OperationNode, documentVariableName: string, operationType: string,
    operationResultType: string, operationVariablesTypes: string,
    hasRequiredVariables: bool)
    ensures
      Dispatch(prefix, other, node, documentVariableName, operationType,
               operationResultType, operationVariablesTypes, hasRequiredVariables)
      == RenderedBy(Dispatch(prefix, fetcher, node, documentVariableName, operationType,
                             operationResultType, operationVariablesTypes, hasRequiredVariables),
                    other)
  {
  }

  /** Keeping first occurrences keeps only names that were added. */
  lemma ListItemsKept(log: seq<string>)
    ensures AllListItems(log) ==> AllListItems(FirstOccurrences(log))
  {
    if AllListItems(log) {
      var r := FirstOccurrences(log);
      forall i | 0 <= i < |r| ensures IsListItem(r[i]) {
        var k := IndexOf(log, r[i]);  // the position in `log` the item comes from
      }
    }
  }

  class ReactQueryVisitor {
    /** `_externalImportPrefix`, fixed at construction. */
    const externalImportPrefix: string
    /** The fetcher strategy, selected once at construction. */
    const fetcher: Strategy
    /** `_documents`: the document files of the run, kept as opaque handles. */
    const documents: seq<string>
    /** `reactQueryIdentifiersInUse`, in insertion order, without duplicates. */
    var identifiersInUse: seq<string>
    /** Every identifier ever added, duplicates included, in call order. */
    ghost var identifierLog: seq<string>
    /** `_collectedOperations`, filled by the base visitor. */
    var collectedOperations: seq<OperationNode>

    /** The identifiers in use are the first occurrences of everything added. */
    ghost predicate Valid()
      reads this
    {
      identifiersInUse == FirstOccurrences(identifierLog)
    }

    constructor (rawConfig: RawConfig, documents: seq<string>)
      ensures Valid()
      ensures externalImportPrefix == ImportPrefix(rawConfig.importOperationTypesFrom)
      ensures fetcher == CreateFetcher(WithDefault(rawConfig.fetcher))
      ensures this.documents == documents
      ensures identifiersInUse == [] && identifierLog == [] && collectedOperations == []
    {
      externalImportPrefix := ImportPrefix(rawConfig.importOperationTypesFrom);
      this.documents := documents;
      fetcher := CreateFetcher(WithDefault(rawConfig.fetcher));
      identifiersInUse := [];
      identifierLog := [];
      collectedOperations := [];
    }

    /** `reactQueryIdentifiersInUse.add(id)`, as the hook generators call it:
        an identifier already in use leaves the set as it was, a new one is
        put last. The set only grows. */
    method UseIdentifier(id: string)
      requires Valid()
      modifies this`identifiersInUse, this`identifierLog
      ensures Valid()
      ensures identifierLog == old(identifierLog) + [id]
      ensures identifiersInUse ==
                if id in old(identifiersInUse) then old(identifiersInUse)
                else old(identifiersInUse) + [id]
      ensures old(identifiersInUse) <= identifiersInUse
    {
      FirstOccurrencesSnoc(identifierLog, id);
      if id !in identifiersInUse {
        identifiersInUse := identifiersInUse + [id];
      }
      identifierLog := identifierLog + [id];
    }

    /** The base visitor records every operation definition it visits,
        whatever its kind, before asking for its hook. */
    method CollectOperation(node: OperationNode)
      modifies this`collectedOperations
      ensures collectedOperations == old(collectedOperations) + [node]
    {
      collectedOperations := collectedOperations + [node];
    }

    /** `getImports`: the base imports unchanged while no operation was
        collected; otherwise the base imports followed by exactly one line,
        which names every identifier in use once, in order of first use. */
    function GetImports(baseImports: seq<string>): (imports: seq<string>)
      reads this
      requires Valid()
      ensures collectedOperations == [] ==> imports == baseImports
      ensures collectedOperations != [] ==>
                |imports| == |baseImports| + 1 && imports[..|baseImports|] == baseImports
      ensures collectedOperations != [] && AllListItems(identifierLog) ==>
                ParseImportLine(imports[|baseImports|]) == Some(FirstOccurrences(identifierLog))
    {
      if |collectedOperations| == 0 then baseImports
      else
        ImportLineRoundTrip(identifiersInUse);
        ListItemsKept(identifierLog);
        baseImports + [ImportLine(identifiersInUse)]
    }

    /** `buildOperation`: prefixes the two type names and dispatches on the
        operation kind with the visitor's own prefix and strategy. The hook
        generator it calls adds the identifiers its hook uses, `registered`
        (fixed by the strategy files), to the set in use; a skipped or ignored
        operation adds nothing. */
    method BuildOperation(
      node: OperationNode, documentVariableName: string, operationType: string,
      operationResultType: string, operationVariablesTypes: string,
      hasRequiredVariables: bool, registered: seq<string>) returns (out: BuildOutput)
      requires Valid()
      modifies this`identifiersInUse, this`identifierLog
      ensures Valid()
      ensures out == Dispatch(externalImportPrefix, fetcher, node, documentVariableName,
                              operationType, operationResultType, operationVariablesTypes,
                              hasRequiredVariables)
      ensures identifierLog == old(identifierLog) + (if out.Hook? then registered else [])
      ensures old(identifiersInUse) <= identifiersInUse
      ensures forall id :: id in identifiersInUse <==>
                id in old(identifiersInUse) || (out.Hook? && id in registered)
    {
      ghost var log0 := identifierLog;
      out := Dispatch(externalImportPrefix, fetcher, node, documentVariableName,
                      operationType, operationResultType, operationVariablesTypes,
                      hasRequiredVariables);
      if out.Hook? {
        var i := 0;
        while i < |registered|
          invariant 0 <= i <= |registered|
          invariant Valid()
          invariant identifierLog == log0 + registered[..i]
        {
          UseIdentifier(registered[i]);
          assert registered[..i + 1] == registered[..i] + [registered[i]];
          i := i + 1;
        }
        assert registered[..i] == registered;
      } else {
        assert identifierLog == log0 + [];
      }
      FirstOccurrencesExtend(log0, if out.Hook? then registered else []);
    }
  }

  /** The import line lists each identifier once, in order of first use. */
  lemma ImportedIdentifiersAreDistinctAndOrdered(v: ReactQueryVisitor, i: nat, j: nat)
    requires v.Valid()
    requires i < j < |v.identifiersInUse|
    ensures v.identifiersInUse[i] != v.identifiersInUse[j]
    ensures IndexOf(v.identifierLog, v.identifiersInUse[i]) < IndexOf(v.identifierLog, v.identifiersInUse[j])
  {
    FirstOccurrencesInInsertionOrder(v.identifierLog, i, j);
  }
}
