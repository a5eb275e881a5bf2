# Permission layer, gateway filters and client failover of BlueKing CMDB, in Dafny

This project models the parts of BlueKing CMDB that decide whether a request is served, and where: the
registration of the CMDB's permission model at the IAM service, the authorization of requests against
it, the gateway's permission and rate filters, and the discovery and retry code of the internal
clients. The modules follow the source's components.

- **Registration** (`IamTypes`, `Registration`, `RegistrationProofs`, `RegistrationTheorems`,
  `RegistrationOrder`, `Reconciler`, `IamTables`). `RegisterSystem` brings a remote registry of resource types, instance
  selections and actions in line with generated tables, call by call. A run is the sequence of registry
  states it shows; a failing call ends it and may have stored any part of its batch. `Reconciler` is the
  code, `Registration` the plan it follows, `IamTables` the generated tables themselves.
- **Adaptation** (`Meta`, `Adaptor`, `ActionRule`, `SchemaConformance`, `IamPath`). How a resource of a request becomes
  an IAM action with IAM resources, the rule behind the table of actions, the resources checked against the
  tables that the registration side declares, and how printed instance paths are read back.
- **Authorization** (`Authorizer`, `AuthVerify`, `Framework`, `ParseChain`, `ChainTheorems`, `UriRows`,
  `RouteTables`, `ShippedChain`, `Gate`). From the request line to the list of resources (the parse chain), from there
  to one batch and back to decisions (the merge), and the gateway filter on top of both.
- **Rate limits** (`Limiter`, `RateWindow`). The rule that applies to a request, and the expiring counter
  behind it.
- **Failover** (`Slices`, `Discovery`, `ServerList`, `RestRetry`). The rotation of servers on shared
  slices, its fairness, and the bounded retry loop over it.
- **Extension lookups** (`Instances`, `HostPaging`). Resources for lists of instances, and paged reading of
  hosts.

`Common` and `Text` hold what the modules share. Code that works step by step is modelled by classes and
methods, each tied by its `ensures` to a function or predicate; the properties are lemmas about those.
Remote services are parameters: functions that may fail, or events of a run. Where the order of a Go map
matters, the model leaves the order open.

Three results differ from what one might expect of the code. Adapted resources match the declared schema
except in requests to create a model or a model instance that carry no layer
(`SchemaConformance.AdaptConforms`, with such a request in `SchemaConformance.ModelWithoutGroup`). Process
templates and the topology of a business have rows in the table of actions, yet no change of them can be
adapted, the one for want of a resource type, the other for want of a generator
(`ActionRule.UnadaptableExactly`). And over an interval of `k` windows the rate counter admits up to `(k + 1) * limit - 1` requests beside failed calls,
which is reached (`RateWindow.WindowBound`, `RateWindow.BoundIsReached`).

The parse chain lets a table-driven handler overrule, and with an empty match even erase, what an earlier
handler of its group found (`ChainTheorems.LastTableDecides`, `ChainTheorems.EmptyMatchErases`). With the
shipped patterns this never happens: no request matches a table after a hit in its group, so the chain is a
search for the first handler that fires (`ShippedChain.ShippedParseIsFirstFire`).

An action id of the source is a constant such as `CreateSysModel`; here the same names stand for a verb and a
subject, and what each action declares is written down once, by verb and subject.

## Model

| member | source | states |
|---|---|---|
| `RegistrationTheorems.EveryStateIsClosed` | src/ac/iam/iam.go:75-228 | In every state of every run, including runs cut short by a call that stored any part of its batch, no selection names an unregistered type and no action an unregistered type or selection |
| `RegistrationTheorems.HistoryIsClosed` | src/ac/iam/iam.go:75-228 | The same along any number of runs, each started from what the one before left |
| `RegistrationTheorems.SuccessConverges` | src/ac/iam/iam.go:75-273 | A run that succeeds leaves exactly the generated entries, the host and the three documents, whatever registry it started from |
| `RegistrationTheorems.RetriesConverge` | src/ac/iam/iam.go:75-273 | After any number of failed runs one successful run converges and leaves no dangling reference between layers, also when the first registry had some |
| `RegistrationTheorems.HistoryIsValid` | src/ac/iam/iam.go:75-273 | In every state of every run of a history entries sit under their own ids, and an unregistered system holds nothing |
| `RegistrationTheorems.SettledStays` | src/ac/iam/iam.go:111-228 | A generated entry that is in place stays in place in every later state of the run |
| `RegistrationTheorems.ProgressIsKept` | src/ac/iam/iam.go:111-228 | And in every state of every later run: a failed run loses no ground |
| `RegistrationTheorems.ConvergedPlan` | src/ac/iam/iam.go:111-270 | On a converged registry the calls are one update per generated entry in table order and three document updates: no create, no delete |
| `RegistrationTheorems.ConvergedIsFixed` | src/ac/iam/iam.go:75-273 | No state of a run on a converged registry differs from it, even when the run fails halfway |
| `RegistrationTheorems.EveryCallIsApplicable` | src/ac/iam/iam.go:111-270 | Every call meets the registry it was planned for: it updates and removes what is there, creates what is not |
| `RegistrationOrder.PhasesAscend` | src/ac/iam/iam.go:75-273 | The calls of every run go from the system over updates and additions of types, selections and actions to the removal of actions, selections and types and on to the three documents; at most one call for each of these save the updates |
| `Reconciler.SyncLayer` | src/ac/iam/iam.go:111-190 | One layer: updates for known ids in table order, then one batch of the rest, and the leftovers are the known ids of the layer that the table lacks; on failure the calls sent are a prefix of that |
| `Reconciler.WriteLayers` | src/ac/iam/iam.go:111-190 | The three layers in order of dependency, stopping at the first failure |
| `Reconciler.RemoveLeftovers` | src/ac/iam/iam.go:192-228 | Leftovers are removed in the reverse order of dependency, one batch per layer, none for an empty layer |
| `Reconciler.StoreDocuments` | src/ac/iam/iam.go:230-270 | Groups, creator actions and common actions are registered when the snapshot has none, else updated |
| `Reconciler.RegisterSystem` | src/ac/iam/iam.go:75-273 | The calls sent and the states seen form a run of the plan |
| `IamTables.GenerateActions` | src/ac/iam/initial_actions.go:121-154 | 76 actions, each the row of its id, at the position of that id |
| `IamTables.ActionAt` | src/ac/iam/initial_actions.go:121-154 | Every id that has a position is in the table there, with its row |
| `IamTables.RelatedFit` | src/ac/iam/initial_actions.go:156-1316 | The related types and selections of every action are generated ones |
| `IamTables.RelatedActionsFit` | src/ac/iam/initial_actions.go:156-1316 | The actions that an action depends on are generated ones |
| `IamTables.SelectionsClosed` | src/ac/iam/initial_instance_selections.go:23-235 | Chains name generated types only |
| `IamTables.ActionsClosed` | src/ac/iam/initial_actions.go:121-154 | Generated actions name generated types and selections only |
| `IamTables.TablesAreWellFormed` | src/ac/iam/initial_actions.go:121-1316 | The three tables have unique ids and no reference that leaves them: the premise of the registration theorems holds of the shipped tables |
| `IamTables.TypeAt` | src/ac/iam/initial_resources.go:51-62 | 25 resource types, each id of the table at its own position, so ids are unique |
| `IamTables.TypeKeyGenerated` | src/ac/iam/initial_resources.go:51-420 | A type id has an entry in the table exactly when it is one of the 25 |
| `Reconciler.IamClient.GetSystemInfo` | src/ac/iam/client.go:62-88 | Reading the registry fails, or answers with the current one and changes nothing |
| `Reconciler.IamClient.Send` | src/ac/iam/client.go:40-478 | Any other call is stored in full, or fails with any part of its batch stored |
| `SchemaConformance.AdaptConforms` | src/ac/iam/adaptor.go:26-47 | For every attribute that adapts to an action other than skip, the resource types equal the declared ones in number and order, exactly unless it asks to create a model or a model instance without any layer |
| `SchemaConformance.ModelWithoutGroup` | src/ac/iam/gen_id.go:363-386 | Such a request: creating a model without layers yields the model type where the action declares the model group |
| `SchemaConformance.PathsFollowSelections` | src/ac/iam/gen_id.go:24-100 | A resource carries a path exactly when the action's selection has one parent type and the attribute has that level, and the path names it |
| `SchemaConformance.PermissionFitsVerb` | src/ac/iam/adaptor.go:130-172 | The action of a request is declared with the type its verb asks for: create or edit for creations, edit for updates, delete or edit for deletions, view for reads except those of the model topology, and delete for nothing else; no action is needed for reads and for six kinds only |
| `SchemaConformance.IdsFitTheirTypes` | src/ac/iam/gen_id.go:24-662 | Under every action each resource carries exactly the id of the entity of its own type: the decimal id of the layer at its place, of the business when positive, or of the attribute itself, which cloud accounts and model instances send always and all others when it is positive; model creations and instances without a layer send none |
| `SchemaConformance.RequestsMeetRegistry` | src/ac/iam/initial_actions.go:121-154 | On a converged registry every adapted request names a registered action of the kind its verb asks for, with resources of registered types; they are those registered for the action exactly unless a layer is missing |
| `SchemaConformance.HostConforms` | src/ac/iam/gen_id.go:474-621 | The same for hosts, where transfers need two resources and edits a path |
| `SchemaConformance.ModelInstanceConforms` | src/ac/iam/gen_id.go:637-662 | The same for model instances: creation is authorized on the layer above and misses the declared type without one |
| `SchemaConformance.ModelConforms` | src/ac/iam/gen_id.go:363-386 | The same for models: creation is authorized on the model group in the first layer |
| `ActionRule.CreationsFollowRule` | src/ac/iam/adaptor.go:130-456 | To create one or many of a kind with a subject takes the permission to create that subject; for parts of something larger and a business's custom fields the permission to edit it; three kinds know no creation |
| `ActionRule.UpdatesFollowRule` | src/ac/iam/adaptor.go:130-456 | An update takes the permission to edit the subject, that of business hosts or custom fields within a business; two kinds know no update |
| `ActionRule.DeletionsFollowRule` | src/ac/iam/adaptor.go:130-456 | A deletion takes the permission to delete the subject, for parts and custom fields to edit it; four kinds know no deletion |
| `ActionRule.ReadsFollowRule` | src/ac/iam/adaptor.go:130-456 | Reads are free but for six kinds with a permission to view, dynamic groups and the model topology |
| `ActionRule.MovesRelateToBothEnds` | src/ac/iam/adaptor.go:229-236 | Each of the four moves of hosts has the action whose related types are where the move starts and where it ends, in this order |
| `ActionRule.OtherVerbs` | src/ac/iam/adaptor.go:130-456 | Every other verb is known to one or two kinds, with its action, and an error for all others |
| `ActionRule.NoSubjectNoAction` | src/ac/iam/adaptor.go:130-456 | The common verbs on kinds without a subject are free or refused, and which is which |
| `ActionRule.WatchesGoByName` | src/ac/iam/types.go:307-313 | A watch verb takes the watch action that carries its name, and event watching knows no other verb |
| `ActionRule.OnlyReadsAreFree` | src/ac/iam/adaptor.go:130-456 | Whatever needs no permission is a read, is skipped, or concerns one of six kinds that nobody checks |
| `ActionRule.UnadaptableExactly` | src/ac/iam/adaptor.go:26-47 | An attribute cannot be adapted exactly when its kind does not know the verb or has no type, or when something has to be asked and the business or the layers it takes are missing |
| `IamPath.ParseIamPathToAncestors` | src/ac/iam/adaptor.go:458-479 | The result lists the levels of all paths in order, each with its type, its id and the display name of its type, empty for an unknown one; an error arises exactly when some level is not a pair |
| `IamPath.NamedInOrder` | src/ac/iam/adaptor.go:466-475 | Every level but the wildcards is kept, at the place given by the number of kept ones before it |
| `IamPath.RoundTrip` | src/ac/iam/adaptor.go:458-479 | Parsing printed paths gives back exactly their type and id pairs in order, without the wildcard levels |
| `IamPath.NumberedRoundTrip` | src/ac/iam/gen_id.go:597-614 | Levels with decimal int64 ids come back whole, and the ids parse back to the numbers |
| `IamPath.AcceptedIffPrinted` | src/ac/iam/adaptor.go:458-479 | A path is accepted exactly when, outer slashes aside, it is a printed list of levels |
| `IamPath.RequestPathsParse` | src/ac/iam/gen_id.go:148-657 | Every path that an adapted request carries is read back as one ancestor: the declared parent type under the attribute's parent id |
| `Authorizer.ParseAttributesToBatchOptions` | src/ac/iam/iam.go:341-394 | The batch holds the adapted resources that are not skipped, in order; decided are exactly those with the skip action and those that adapt to skip; an error arises exactly when one that is not skipped cannot be adapted |
| `Authorizer.CollectBatch` | src/ac/iam/iam.go:350-383 | The loop behind it, for any way of treating a resource |
| `Authorizer.Merge` | src/ac/iam/iam.go:328-339 | The running index puts each answer at the next position that still waits, and leaves the list exactly when there are more answers than such positions |
| `Authorizer.AuthorizeBatch` | src/ac/iam/iam.go:293-339 | The outcome for every list and every reply, of any length, of the server; a failure exactly when a resource cannot be adapted or a server that has to be asked does not answer; everything passes when authorization is off |
| `Authorizer.FailsExactly` | src/ac/iam/iam.go:293-394 | The two ways to fail in terms of the attributes: one without the skip action cannot be adapted, or one adapts to an action other than skip and the server answers with an error |
| `Authorizer.DecisionIsItsOwn` | src/ac/iam/iam.go:293-394 | On success an attribute passes exactly when its action is skip, or it adapts to skip, or the server grants the action and the resources it adapts to |
| `Authorizer.BatchRefinesPointwise` | src/ac/iam/iam.go:293-394 | Against a server that answers position by position there is no panic, and on success every resource has the decision it would get alone |
| `Authorizer.AnswersGoByRank` | src/ac/iam/iam.go:328-339 | For replies of any length: a panic exactly when there are more answers than resources sent; else the resource with r sent ones before it gets answer r, and false when there is none |
| `Authorizer.BatchAt` | src/ac/iam/iam.go:350-379 | The batch entry of a sent resource is at its rank among those sent |
| `AuthVerify.SplitModes` | src/apiserver/service/auth.go:53-82 | The two lists together are the request, each in request order; the first has the resources with an instance id, an extra id, a business or a layer, the second those with none of them |
| `AuthVerify.FillIn` | src/apiserver/service/auth.go:92-101 | The running index over one mode writes at every position of that mode its own decision and leaves the others as they were |
| `AuthVerify.Verify` | src/apiserver/service/auth.go:33-121 | Every reply of the endpoint, including disabled authorization, an undecodable body and failures of either batch, as the weaving of both lists of decisions |
| `AuthVerify.EachOwnVerdict` | src/apiserver/service/auth.go:53-121 | A successful reply repeats the request in order, each resource with the verdict of its own mode on itself; every index is in range |
| `AuthVerify.VerdictByFields` | src/apiserver/service/auth.go:53-121 | The same in terms of the request: the attribute asked about has the resource's fields and the user's account, the exact server decides when an instance, an extra id, a business or a layer is named, the other one when none is, and skipped resources pass |
| `AuthVerify.FailsExactlyWhen` | src/apiserver/service/auth.go:86-109 | A server error exactly when some resource cannot be adapted or a server with something to answer does not answer |
| `AuthVerify.PlaceBound` | src/apiserver/service/auth.go:92-118 | The running index of a mode stays within its decisions and stands at the position's own resource |
| `Framework.MatchAndGenerateIAMResource` | src/ac/parser/framework.go:52-100 | The resources, the error or the nil of the table for a request |
| `Framework.FirstRowDecides` | src/ac/parser/framework.go:52-125 | The first row with the request's verb and a match of its path decides alone: an error exactly when one of its getters fails, else one resource for each of its ids in order, or one without an id, with the row's type and action and the business found |
| `Framework.NoRowNoResult` | src/ac/parser/framework.go:52-100 | The result is nil exactly when no row matches |
| `ParseChain.ParseStream.ParseWithFramework` | src/ac/parser/framework.go:127-137 | A table-driven handler acts on the stream whatever it holds: an error is recorded, resources replace those there |
| `ParseChain.ParseStream.RunGroup` | src/ac/parser/process.go:15-28 | A group checks the stream once and then runs all its handlers in order |
| `ParseChain.ParseStream.ValidateUserAndSupplier` | src/ac/parser/chain.go:187-210 | An error exactly when a header is missing, else both headers are taken over |
| `ParseChain.ParseStream.Parse` | src/ac/parser/chain.go:86-116 | The attribute or error for every request and every behaviour of the handlers |
| `ChainTheorems.ErrorIsFinal` | src/ac/parser/chain.go:86-108 | An error left by any handler of any group fails the parse, whatever runs later |
| `ChainTheorems.SuccessIsTagged` | src/ac/parser/chain.go:106-116 | Success means at least one resource, and the header's supplier account on every one; all other fields are as the chain left them |
| `ChainTheorems.ParseFailsExactly` | src/ac/parser/chain.go:86-210 | A parse fails exactly for a path that does not start with api and v3, for a missing header, for an error of the chain and when it found nothing |
| `ChainTheorems.EveryHandlerOnce` | src/ac/parser/chain.go:91-105 | Every handler runs once, in its group and at its place there |
| `ChainTheorems.ChainIsFirstFire` | src/ac/parser/chain.go:91-105 | For any handlers: when no table matches after a hit of its own group, the chain equals a search for the first handler that fires |
| `ChainTheorems.ParseIsFirstFire` | src/ac/parser/chain.go:86-116 | The same for the whole parse with its header checks |
| `ChainTheorems.LastTableDecides` | src/ac/parser/framework.go:127-137 | Without that premise the resources of a group are those of its last matching table |
| `ChainTheorems.EmptyMatchErases` | src/ac/parser/framework.go:132-134 | For any handlers: a match that yields an empty list erases an earlier hit of the group, and the rest of the group runs as on a clean stream |
| `UriRows.UrlParseIsRegex` | src/ac/parser/parser.go:88-97 | Exactly the strings of the regular expression are accepted, and what is accepted has the three elements that the chain indexes |
| `UriRows.ReadingIsUnique` | src/ac/parser/settemplate.go:26-223 | An anchored row reads a path in one way, so what its groups capture is well defined |
| `RouteTables.SetTemplateRows` | src/ac/parser/settemplate.go:26-223 | Every row has the captured number after bk_biz_id at its BizIndex, and topo as its fourth word |
| `RouteTables.HostApplyRows` | src/ac/parser/hostapply.go:22-105 | The same for the host apply rows, whose third and fourth words are a verb and host_apply_rule or host_apply_plan |
| `RouteTables.BizIdComesFromPath` | src/ac/parser/framework.go:110-125 | For all 29 rows with a BizIndex and every path one of them accepts, of any length and with or without the last slash, the path splits into more than BizIndex elements, the one there is the digit string captured after bk_biz_id or biz, and the business id is its value |
| `RouteTables.RowsOf` | src/ac/parser/serviceinstance.go:22-199 | Every row of the ten tables begins with api, has words that only its own table uses, and its BizIndex, if any, points behind the word for a business |
| `RouteTables.OneTableOnly` | src/ac/parser/process.go:15-28 | No path is matched by rows of two of these tables, also where an expression is not anchored at the start |
| `ShippedChain.NoHeadOnApplyPath` | src/ac/parser/host.go:18-32 | No path of a host apply row has a beginning that the patterns of a handler before it look for, also where a pattern is not anchored |
| `ShippedChain.NoHeadOnTemplatePath` | src/ac/parser/topolatest.go:35-53 | The same for set templates and the handlers before them |
| `ShippedChain.GroupsUndisturbed` | src/ac/parser/chain.go:91-105 | In every group, once a shipped handler has fired on a request no later table of the group matches it |
| `ShippedChain.ShippedParseIsFirstFire` | src/ac/parser/chain.go:86-116 | For every request with valid headers the shipped chain equals a search for the first handler that fires, over all groups |
| `ShippedChain.FirstHitAnswers` | src/ac/parser/chain.go:86-116 | In terms of a request: the first handler that is not silent decides; its error fails the parse, its resources are the answer, in order and under the header's account |
| `Gate.ParseAttribute` | src/ac/parser/parser.go:30-59 | The attribute or error of a request, from its path on |
| `Gate.AuthFilter` | src/apiserver/service/filter.go:136-230 | The reply for every request, including exempt paths, disabled authorization, failing servers and failing lookups of permissions to apply for |
| `Gate.RepliesExactly` | src/apiserver/service/filter.go:163-230 | Each reply exactly: unparsed; check failed when a resource cannot be adapted, the server does not answer or the lookup for a refused one fails; no permission when one is refused; forwarded when all are granted |
| `Gate.ForwardsExactlyTheDeserving` | src/apiserver/service/filter.go:136-230 | A request that is not exempt is forwarded exactly when it parses, the server answers, and every resource of it would be let through alone; no panic |
| `Gate.NothingPassesUnasked` | src/apiserver/service/filter.go:186-230 | Against any server, whatever and however much it answers: every resource of a forwarded request that is not skipped has a positive answer of its own |
| `Gate.ForwardedIsTagged` | src/apiserver/service/filter.go:163-230 | A forwarded request that is not exempt names at least one resource, and all of them carry the supplier account of its header |
| `Limiter.RuleTable.Sync` | src/apiserver/service/limiter.go:63-113 | The table holds under each name the last usable child of that name, nothing else; a failed listing keeps the old table |
| `Limiter.InstallStep` | src/apiserver/service/limiter.go:75-98 | One more child keeps that true of the table under construction |
| `Limiter.RuleTable.Applies` | src/apiserver/service/limiter.go:142-181 | A rule applies exactly when it sets a criterion and every criterion it sets is met |
| `Limiter.CriteriaNarrow` | src/apiserver/service/limiter.go:142-181 | A rule without criteria matches nothing, and each criterion has to be met by itself and by what is left of the rule |
| `Limiter.RuleTable.GetMatchedRule` | src/apiserver/service/limiter.go:136-195 | In any order of the map: a rule that denies all if one applies, else an applying rule of least limit if some limit is below 999999, else none |
| `Limiter.EveryRuleIsHeeded` | src/apiserver/service/limiter.go:136-195 | An applying rule that denies all makes the choice one that denies all, and an applying rule below 999999 makes it no weaker than that rule |
| `Limiter.EveryOrderChooses` | src/apiserver/service/limiter.go:136-195 | The loop over any given order makes such a choice |
| `Limiter.ChoicesAgree` | src/apiserver/service/limiter.go:136-195 | All such choices refuse, limit to the same number, or let through alike |
| `Limiter.EveryChoiceHappens` | src/apiserver/service/limiter.go:136-195 | Every such choice comes from some order, so between ties the order decides whose counter applies |
| `RateWindow.Store.Eval` | src/apiserver/service/filter.go:232-255 | The key and the reply after the script for every key, time and failing command |
| `RateWindow.LimiterFilter` | src/apiserver/service/filter.go:258-309 | The decision and the new store for every request: no rule forwards it and a rule that denies all refuses it, both without touching the store; any failed call lets it pass; else it passes exactly when the limit is not used up |
| `RateWindow.EveryBranch` | src/apiserver/service/filter.go:258-309 | The same for each step of a run, with what the request uses up and the counters of other rules as they were |
| `RateWindow.CallInWindow` | src/apiserver/service/filter.go:232-255 | One call keeps the count of admitted requests within what the counter and the number of its creations account for, and creations a window apart |
| `RateWindow.WindowBound` | src/apiserver/service/filter.go:232-309 | Over every run and every start, a half-open interval of k windows admits at most (k + 1) * limit - 1 requests of the rule beside the failed calls |
| `RateWindow.BoundIsReached` | src/apiserver/service/filter.go:232-309 | For every k >= 1, every limit and every window of two ticks or more there is a run without failures that reaches the bound |
| `RateWindow.ZeroLimit` | src/apiserver/service/filter.go:296-305 | A limit of zero admits failed calls only |
| `RateWindow.DeadlineOnce` | src/apiserver/service/filter.go:240-253 | No call moves a deadline that is there; a call that reports a count leaves one, a window from now when there was none |
| `RateWindow.DeadlineNear` | src/apiserver/service/filter.go:240-253 | No deadline of a run is more than a window after its last request |
| `RateWindow.RefusalEnds` | src/apiserver/service/filter.go:258-309 | The next request of a rule that comes a window after a refused one, to a store that drops expired keys, is let through |
| `Slices.Append` | src/apimachinery/discovery/server.go:66-73 | Go's append: in place while there is room, else into a new array |
| `Discovery.Rotor.Turn` | src/apimachinery/discovery/server.go:66-73 | The appended slice is the turned list, and slot n + j of the array only ever receives entry j |
| `Discovery.Rotor.Rotate` | src/apimachinery/discovery/server.go:54-74 | Whatever the cursor, the answer is the current list from the cursor's entry on and around the end, or from the last entry when the cursor is at it or beyond, and the cursor moves on by one; neither the list nor any rotation handed out earlier changes |
| `Discovery.Rotor.AllStays` | src/apimachinery/discovery/server.go:66-73 | Writing behind the list leaves the list and all earlier rotations intact |
| `Discovery.Rotor.Replace` | src/apimachinery/discovery/server.go:174-178 | A new list leaves earlier rotations and the cursor as they are |
| `ServerList.UpdateServer` | src/apimachinery/discovery/server.go:153-185 | The list becomes the decodable servers with a port and an address, in order; it stays when there is none |
| `ServerList.UsableInOrder` | src/apimachinery/discovery/server.go:153-173 | Every server with a port and an address is kept, at the place given by the number of kept ones before it, with its port and address; the scheme is https or else http |
| `ServerList.HandleEvent` | src/apimachinery/discovery/server.go:99-127 | An error of the registry keeps the list, no server empties it, no usable server keeps it, and else it becomes the usable ones |
| `ServerList.GetServers` | src/apimachinery/discovery/server.go:54-82 | An error exactly for the empty list, else the address texts of the list once around from the cursor's entry |
| `ServerList.TurnedKeepsAll` | src/apimachinery/discovery/server.go:66-73 | Every answer holds every server of the list as often as the list does |
| `ServerList.LeadMoves` | src/apimachinery/discovery/server.go:67-73 | From any cursor, d calls later the lead is d entries further, around the end |
| `ServerList.LeadersDiffer` | src/apimachinery/discovery/server.go:67-73 | Any n calls in a row on a list of n have n different leaders |
| `ServerList.FairShare` | src/apimachinery/discovery/server.go:67-73 | Over m calls each server leads m / n times, rounded down or up |
| `ServerList.TargetIsServer` | src/apiserver/service/filter.go:122-131 | The gateway takes scheme and host out of an address as they went in |
| `ServerList.ListsAreClean` | src/apimachinery/discovery/server.go:153-185 | Every server of a list has a port, an address and the scheme http or https |
| `RestRetry.IsConnectionReset` | src/apimachinery/rest/request.go:620-634 | True exactly for errno 104 inside at most one URL, one operation and one system call error, in that order: eight shapes |
| `RestRetry.Client.Do` | src/apimachinery/rest/request.go:259-390 | The hosts contacted, the throttle's calls and the result for every sequence of attempt outcomes, and without any attempt for a request in error, a mocked client and a failing discovery; a GET never returns a reset connection |
| `RestRetry.RetriesAreJustified` | src/apimachinery/rest/request.go:287-390 | Hosts contacted are a prefix of the list taken three times; a repetition follows only a body that ended early or, for GET, a reset connection; the throttle runs attempts - 1 times; success carries the last attempt's response |
| `RestRetry.EachAttemptDecides` | src/apimachinery/rest/request.go:287-390 | Each attempt decides what comes next: a body that ended early, or a reset connection on a GET, is followed by the next attempt, all else ends the call with what the attempt has come to; this leaves one outcome for any behaviour of the servers |
| `RestRetry.GivingUpTakesAll` | src/apimachinery/rest/request.go:287-390 | The unexpected error means exactly that every one of the attempts asked for another, and every server was asked three times |
| `RestRetry.AllBeforeAgain` | src/apimachinery/rest/request.go:287-293 | Over a rotation of different servers none is asked again before all others were |
| `RestRetry.RoundIsWhole` | src/apimachinery/rest/request.go:287-293 | A call starts with the server whose turn it is, and a round reaches every server of the list |
| `Instances.CollectObjects` | src/ac/extensions/instance.go:72-121 | Succeeds exactly when every instance's model is found, and maps each instance id to the model of the last instance with that id |
| `Instances.ModelFound` | src/ac/extensions/instance.go:72-121 | The model of an instance is found exactly when the store answers for its business with as many models as there are distinct object ids to ask for and one has its object id; the last such model is taken |
| `Instances.MakeResourcesByInstances` | src/ac/extensions/instance.go:123-209 | In every order of the maps: nothing unless every model is found, else the multiset of one resource per instance |
| `Instances.OneMoreGroup` | src/ac/extensions/instance.go:162-207 | Taking the groups one after the other in any order takes every instance once |
| `Instances.ResultIsPermutation` | src/ac/extensions/instance.go:123-209 | As many resources as instances, and nothing but their resources |
| `Instances.OwnBusinessOwnModel` | src/ac/extensions/instance.go:123-209 | With distinct instance ids each resource has its instance's business, id and name, the action and the account asked for, and one layer with the id of the model found; with distinct model ids also that model's name, and the mainline kind exactly when the instance's object id is in the mainline |
| `Instances.OwnBusinessIff` | src/ac/extensions/instance.go:59-70 | The business ids are all right exactly when no two instances share an id across businesses |
| `HostPaging.CollectPages` | src/ac/extensions/host.go:82-107 | Against a store that does not change the loop ends after max(1, ceil(n / 2000)) reads with the whole result in order, or at the first failing read |
| `HostPaging.PagesAreWhole` | src/ac/extensions/host.go:87-106 | The pages read make up the result and one page fewer does not; an empty store takes one read |
| `HostPaging.ConstructHosts` | src/ac/extensions/host.go:31-80 | Hosts keep their ids and order, each completed from its last relation; an error exactly when there is none, one cannot be parsed, the lookup fails or one has no relation |
| `HostPaging.LastRelationIsLast` | src/ac/extensions/host.go:59-67 | The relation kept for a host is the last one of that host |
| `HostPaging.CollectHosts` | src/ac/extensions/host.go:82-108 | Both together, on the whole store: each host gets business, set and module of its last relation and keeps all else; an error exactly for a failing read or lookup, an empty store, a row that cannot be parsed or a host without a relation |

## Left out

- HTTP, JSON, zookeeper and redis transport, logging and metrics: remote calls are parameters or events.
- The nil `ProviderConfig` of a found system (src/ac/iam/iam.go:98-105): dereferenced right after the test for nil, so a found system is taken to have one.
- Other writers of the registry during a run, and an unregistered system that already holds entries.
- Within-layer references (parents of types, related actions) and references from groups, creator and common actions: existing entries are updated before new ones are created, so these hold only at the end of a run. The contents of the three documents are one abstract value.
- Display names, descriptions, versions and provider paths of the generated entries.
- ShippedChain.ShippedParseIsFirstFire: what the handlers written by hand do with a request they fire on is a parameter; of their patterns only the words after /api/v3 are transcribed, for the two groups that mix them with a table.
- The resources that the topology, topologylatest, host, event and net collector handlers build, including the two pool-move handlers whose loop keeps only its last resource.
- Regular expressions are modelled by the strings they match; the rows of src/ac/parser/settemplate.go, hostapply.go and the process and cloud tables are transcribed segment by segment.
- Limiter.RuleTable.GetMatchedRule: normalization, trimming and regular expression search are parameters.
- RateWindow.WindowBound: times are whole ticks, deletion of the key by others and overflow of the counter beyond an increment error are not modelled; the store drops a key at its deadline or any time later.
- Locks: the methods of a rotation, of the rule table and of the store run one at a time, as the locks and the store's single thread make them.
- Discovery.Rotor.Rotate: the amount of extra room that append allocates is a parameter.
- `IsMaster`, `getInstances` and the channel of server lists, whose drain can block.
- RestRetry.Client.Do: building the request, sleeps, latencies and the closing of bodies; the canned result of a mocked client is a parameter.
- Go maps in `Instances` and `HostPaging` are values; the uniqueness filter on host ids only fixes the query and is not modelled.
- Path rewriting of src/apiserver/service/url.go, and the cached id of the resource pool business.
