# azqr scanner core in Dafny

Azure Quick Review (azqr) scans an Azure subscription and reports, for every
resource it knows, which best-practice recommendations the resource breaks.
This project models two parts of its scanners:

- **Rule predicates.** The rule tables of three services: AKS clusters
  (`aks-001` … `aks-015`), Databricks workspaces (six rules: `dbw-001` and `dbw-003` … `dbw-007`) and
  Event Hubs namespaces (`evh-001` … `evh-006`). Each rule is a record with
  metadata and an `Eval` function that returns whether the rule is broken and
  a detail string.
- **Scan aggregation.** The Advisor scanner lists the subscription's Advisor
  recommendations and flattens them into string records. Four service
  scanners (Container Instances, VM scale sets, SignalR, network security
  groups) drain an SDK pager, evaluate each resource against their rules,
  and emit one service result per resource.

Modules:

- `Wrappers`: `Option` and `Result`.
- `GoStrings`: the parts of Go's `strings` package the rules use.
- `Azqr`: the records shared across scanners (rule, scan context, scanner
  configuration, service result).
- `Paging`: the pager drain loop as a specification function `Drain`, with
  lemmas characterising its success and its failure.
- `AksRules`, `DbwRules`, `EvhRules`: the rule tables.
- `Advisor`, `Ci`, `Vmss`, `Sigr`, `Nsg`: the scanners.

How Go constructs are modelled:

- A Go pointer field is an `Option`.
- An `Eval` that dereferences a field without a nil check requires that
  field to be present. The tables carry these as preconditions of partial
  arrows.
- A scanner is a `class` with `config` and client fields. Only `Init`
  updates them; the listing and scan methods read them.
- The pager loops are `while` loops proved equal to `Drain`.
- The mapping loops are `for` loops, with invariants that tie each result to
  its resource.

## Model

| member | source | states |
|---|---|---|
| AksRules.DiagnosticSettings | internal/scanners/aks/rules.go:23-31 | aks-001 is broken exactly when the diagnostics lookup for the cluster id answers "no diagnostic settings"; a lookup error is excluded, because the source terminates the process on it |
| AksRules.ZonesFlag | internal/scanners/aks/rules.go:42-47 | the zones loop ends true exactly when every agent pool lists at least two availability zones |
| AksRules.AvailabilityZones | internal/scanners/aks/rules.go:40-49 | aks-002 is broken exactly when some agent pool has a nil zone list or fewer than two zones; a cluster with no pools is not broken |
| AksRules.EvalAvailabilityZones | internal/scanners/aks/rules.go:40-49 | the looping evaluation returns the aks-002 verdict |
| AksRules.Tier | internal/scanners/aks/rules.go:68-71 | the SKU tier is the cluster's tier when both the SKU and its tier are set, and "Free" otherwise |
| AksRules.Sla | internal/scanners/aks/rules.go:58-80 | aks-003 reports "None" for a tier containing "Free", otherwise "99.95%" when every pool is zoned and "99.9%" when not; it is broken exactly when it reports "None" |
| AksRules.EvalSla | internal/scanners/aks/rules.go:58-80 | the looping evaluation returns the aks-003 verdict |
| AksRules.Private | internal/scanners/aks/rules.go:89-93 | aks-004 passes exactly when the API server access profile exists and enables a private cluster |
| AksRules.Sku | internal/scanners/aks/rules.go:102-109 | aks-005 reports the tier and is broken exactly when the tier is "Free" |
| AksRules.Caf | internal/scanners/aks/rules.go:118-122 | aks-006 is broken exactly when the cluster name does not start with "aks" |
| AksRules.ManagedAad | internal/scanners/aks/rules.go:131-135 | aks-007 passes exactly when the AAD profile exists and is managed |
| AksRules.Rbac | internal/scanners/aks/rules.go:144-148 | aks-008 is broken exactly when RBAC is disabled |
| AksRules.LocalAccounts | internal/scanners/aks/rules.go:157-164 | aks-009 passes exactly when local accounts are explicitly disabled |
| AksRules.HttpApplicationRouting | internal/scanners/aks/rules.go:173-178 | aks-010 is broken exactly when the HTTP application routing add-on is enabled |
| AksRules.ContainerInsights | internal/scanners/aks/rules.go:187-192 | aks-011 is broken exactly when the omsagent add-on is not enabled |
| AksRules.OutboundType | internal/scanners/aks/rules.go:201-205 | aks-012 is broken exactly when the outbound type is not user-defined routing |
| AksRules.Kubenet | internal/scanners/aks/rules.go:214-218 | aks-013 is broken exactly when the network plugin is kubenet |
| AksRules.Autoscaler | internal/scanners/aks/rules.go:227-239 | aks-014 looks only at the first agent pool: it passes exactly when there is a first pool and its autoscaling flag is set to true |
| AksRules.EvalAutoscaler | internal/scanners/aks/rules.go:227-239 | the loop that returns from its first iteration computes the aks-014 verdict |
| AksRules.Tags | internal/scanners/aks/rules.go:248-251 | aks-015 is broken exactly when the cluster has no tags |
| AksRules.MissingTierIsFree | internal/scanners/aks/rules.go:58-109 | a cluster with no SKU tier is treated as Free: SLA "None" and SKU "Free", both broken |
| AksRules.SkuBrokenImpliesSlaBroken | internal/scanners/aks/rules.go:58-109 | whenever aks-005 is broken, aks-003 is broken too |
| AksRules.SlaBrokenWithoutSkuBroken | internal/scanners/aks/rules.go:58-109 | the converse fails: a tier such as "NotFree" contains "Free", which breaks aks-003 but not aks-005 |
| AksRules.SingleZonePoolScenario | internal/scanners/aks/rules.go:40-80 | for a paid tier, a pool in a single zone breaks aks-002 and yields SLA "99.9%"; every pool in two or more zones passes aks-002 and yields "99.95%" |
| AksRules.GetRules | internal/scanners/aks/rules.go:15-255 | the table's keys are exactly the fifteen keys of the source |
| AksRules.GetRulesCount | internal/scanners/aks/rules.go:15-255 | the table holds fifteen rules, one per source key |
| AksRules.GetRulesKeyOfId | internal/scanners/aks/rules.go:15-255 | each rule's id determines the key it is stored under |
| AksRules.GetRulesIdsDistinct | internal/scanners/aks/rules.go:15-255 | no two rules in the table share an id |
| DbwRules.DiagnosticSettings | internal/scanners/dbw/rules.go:23-26 | dbw-001 is broken exactly when the lower-cased workspace id is not a key of the scan's diagnostic-settings index |
| DbwRules.DiagnosticSettingsIgnoresCase | internal/scanners/dbw/rules.go:23-26 | two workspace ids that differ only in letter case get the same dbw-001 verdict |
| DbwRules.DiagnosticSettingsIndexed | internal/scanners/dbw/rules.go:23-26 | a workspace whose id matches an indexed id up to case passes dbw-001 |
| DbwRules.Sla | internal/scanners/dbw/rules.go:36-38 | dbw-003 is never broken and always reports "99.95%" |
| DbwRules.PrivateEndpoint | internal/scanners/dbw/rules.go:47-50 | dbw-004 is broken exactly when the workspace has no private endpoint connections |
| DbwRules.Sku | internal/scanners/dbw/rules.go:60-62 | dbw-005 is never broken and reports the SKU name |
| DbwRules.Caf | internal/scanners/dbw/rules.go:72-75 | dbw-006 is broken exactly when the workspace name does not start with "dbw" |
| DbwRules.NewBoolPtr | internal/scanners/dbw/rules.go:85-88 | a freshly allocated boolean pointer holds the given value and differs in address from the workspace's existing one |
| DbwRules.NoPublicIp | internal/scanners/dbw/rules.go:85-88 | dbw-007 compares pointer identity with a fresh pointer, so it is never broken |
| DbwRules.GetRecommendations | internal/scanners/dbw/rules.go:15-93 | the table holds exactly the six keys dbw-001 and dbw-003 to dbw-007 |
| DbwRules.GetRecommendationsWellKeyed | internal/scanners/dbw/rules.go:15-93 | every recommendation is stored under its own id, and all target the Databricks workspace type |
| DbwRules.InformationalNeverBroken | internal/scanners/dbw/rules.go:36-88 | the SLA, SKU and no-public-IP recommendations of the table never report broken |
| EvhRules.DiagnosticSettings | internal/scanners/evh/rules.go:21-28 | evh-001 is broken exactly when the diagnostics lookup answers "none"; its detail is "true" when it passes and "false" when broken |
| EvhRules.AvailabilityZones | internal/scanners/evh/rules.go:38-41 | evh-002 is broken exactly when zone redundancy is false; its detail is "true" when it passes and "false" when broken |
| EvhRules.Sla | internal/scanners/evh/rules.go:51-58 | evh-003 is never broken; it reports "99.95%" when the SKU name contains Basic or Standard and "99.99%" otherwise |
| EvhRules.PrivateEndpoint | internal/scanners/evh/rules.go:68-71 | evh-004 is broken exactly when the namespace has no private endpoint connections; its detail is "true" when it passes and "false" when broken |
| EvhRules.Sku | internal/scanners/evh/rules.go:81-83 | evh-005 is never broken and reports the SKU name |
| EvhRules.Caf | internal/scanners/evh/rules.go:93-96 | evh-006 is broken exactly when the namespace name does not start with "evh"; its detail is "true" when it passes and "false" when broken |
| EvhRules.SlaByTier | internal/scanners/evh/rules.go:51-58 | the Basic tier gets "99.95%"; the Premium and Dedicated tiers get "99.99%" |
| EvhRules.GetRules | internal/scanners/evh/rules.go:13-101 | the table's keys are exactly the six keys of the source |
| EvhRules.GetRulesCount | internal/scanners/evh/rules.go:13-101 | the table holds six rules, one per source key |
| EvhRules.GetRulesKeyOfId | internal/scanners/evh/rules.go:13-101 | each rule's id determines the key it is stored under |
| EvhRules.GetRulesIdsDistinct | internal/scanners/evh/rules.go:13-101 | no two rules in the table share an id |
| EvhRules.FlagRulesReportPass | internal/scanners/evh/rules.go:13-101 | the four yes/no rules of the table report the formatted pass flag: "true" when they pass, "false" when broken |
| Paging.Drain | internal/scanners/ci/ci.go:55-63 | the listing loop's outcome: any error it reports is the error of one of the fetched pages |
| Paging.DrainFailurePersists | internal/scanners/advisor.go:40-47 | once a page error has been met, the later pages do not change the outcome |
| Paging.DrainSucceeds | internal/scanners/advisor.go:40-47 | draining succeeds exactly when no page is an error, and then yields the concatenation of all pages in order |
| Paging.DrainFails | internal/scanners/advisor.go:40-47 | draining fails with an error exactly when that error is the first error page |
| Advisor.ToAdvisorResult | internal/scanners/advisor.go:50-76 | each result field holds its recommendation property when present and "" when absent; the description is the problem text only when both the short description and its problem are set |
| Advisor.ToAdvisorResults | internal/scanners/advisor.go:49-77 | one result per recommendation, in the same order |
| Advisor.Listed | internal/scanners/advisor.go:35-80 | what the listing returns: it fails exactly when draining fails, with the same error; otherwise one converted result per drained recommendation, in order |
| Advisor.AdvisorScanner.constructor | internal/scanners/advisor.go:17-21 | a new scanner has neither configuration nor client |
| Advisor.AdvisorScanner.Init | internal/scanners/advisor.go:24-32 | stores the configuration; the client is set and no error returned exactly when the client constructor succeeds |
| Advisor.AdvisorScanner.ListRecommendations | internal/scanners/advisor.go:35-80 | a page error is returned with no results; otherwise one stamped result per fetched recommendation, in page order |
| Advisor.AdvisorScanner.Scan | internal/scanners/advisor.go:82-101 | with scanning off, the result is empty and the scanner is untouched; otherwise the configuration is stored and the client set as by Init; an Init error terminates; a listing error gives no results when skippable and terminates otherwise |
| Ci.ContainerInstanceScanner.constructor | internal/scanners/ci/ci.go:12-15 | a new scanner has neither configuration nor client |
| Ci.ContainerInstanceScanner.Init | internal/scanners/ci/ci.go:18-23 | stores the configuration; the client is set and no error returned exactly when the client constructor succeeds |
| Ci.ContainerInstanceScanner.ListInstances | internal/scanners/ci/ci.go:53-64 | the result is the drain of the resource group's pages: the first page error, or every container group in order |
| Ci.ContainerInstanceScanner.Scan | internal/scanners/ci/ci.go:26-51 | a listing error is returned as is; otherwise one result per container group, in order, with the configured subscription, the given resource group, the group's name, type and location, and its evaluations |
| Ci.ContainerInstanceScanner.ResourceTypes | internal/scanners/ci/ci.go:66-68 | the scanner claims exactly the container groups resource type |
| Vmss.VirtualMachineScaleSetScanner.constructor | internal/scanners/vmss/vmss.go:12-15 | a new scanner has neither configuration nor client |
| Vmss.VirtualMachineScaleSetScanner.Init | internal/scanners/vmss/vmss.go:18-23 | stores the configuration; the client is set and no error returned exactly when the client constructor succeeds |
| Vmss.VirtualMachineScaleSetScanner.List | internal/scanners/vmss/vmss.go:53-65 | the result is the drain of the resource group's pages |
| Vmss.VirtualMachineScaleSetScanner.Scan | internal/scanners/vmss/vmss.go:26-51 | a listing error is returned as is; otherwise one result per scale set, in order, stamped and evaluated |
| Vmss.VirtualMachineScaleSetScanner.ResourceTypes | internal/scanners/vmss/vmss.go:67-69 | the scanner claims exactly the scale set resource type |
| Sigr.SignalRScanner.constructor | internal/scanners/sigr/sigr.go:12-15 | a new scanner has neither configuration nor client |
| Sigr.SignalRScanner.Init | internal/scanners/sigr/sigr.go:18-23 | stores the configuration; the client is set and no error returned exactly when the client constructor succeeds |
| Sigr.SignalRScanner.ListSignalR | internal/scanners/sigr/sigr.go:53-65 | the result is the drain of the resource group's pages |
| Sigr.SignalRScanner.Scan | internal/scanners/sigr/sigr.go:26-51 | a listing error is returned as is; otherwise one result per SignalR service, in order, stamped and evaluated |
| Sigr.SignalRScanner.ResourceTypes | internal/scanners/sigr/sigr.go:67-69 | the scanner claims exactly the SignalR resource type |
| Nsg.NSGScanner.constructor | internal/scanners/nsg/nsg.go:12-15 | a new scanner has neither configuration nor client |
| Nsg.NSGScanner.Init | internal/scanners/nsg/nsg.go:18-23 | stores the configuration; the client is set and no error returned exactly when the client constructor succeeds |
| Nsg.NSGScanner.List | internal/scanners/nsg/nsg.go:53-65 | the result is the drain of the subscription-wide pages |
| Nsg.NSGScanner.Scan | internal/scanners/nsg/nsg.go:26-51 | a listing error is returned as is; otherwise one result per security group, in order, whose resource group is the one parsed from the group's own id |
| Nsg.NSGScanner.ResourceTypes | internal/scanners/nsg/nsg.go:67-69 | the scanner claims exactly the network security group resource type |

## Left out

- Credentials, client options, the request context and cancellation are not modelled. An SDK client is the sequence of pages it would yield, or a function from resource group to pages. A client constructor is a function from the configuration to a client or an error.
- The log lines (`LogSubscriptionScan`, `LogResourceGroupScan`) are not modelled. `log.Fatal` in the Advisor `Scan` is a `Terminated` outcome. `log.Fatalf` in aks-001 and evh-001 is a precondition: the diagnostics lookup must not fail.
- `HasDiagnostics`, `azqr.ShouldSkipError` and `azqr.GetResourceGroupFromResourceID` are not part of this model. They are parameters of the members that call them.
- `RecommendationEngine.EvaluateRecommendations` and the scanners' own `GetRecommendations` tables for Container Instances, scale sets, SignalR and security groups are not part of this model. Scans take the evaluation as a parameter.
- GoStrings.ToLower maps only ASCII letters. Go's `strings.ToLower` also folds non-ASCII letters.
- Go map iteration order is not modelled. The rule tables are Dafny maps, as the source's are Go maps, and no evaluation order is implied.
- The `scanners.RulesCategory*`, `RulesSubcategory*` and `Severity*` constants are defined outside the modelled files. Their string values here are placeholders named after the identifiers.
- The four service scanners share one `ArmResource` record. Its id, name, type and location are the fields the scanners read. Its per-service properties are a string map that the scans hand on, with the whole resource, to the evaluation, so two resources that agree on the four stamped fields may still be evaluated differently. The SDK's typed property structs are not modelled.
- Nil elements inside listed pages, agent-pool slices and add-on maps are not modelled. Every element is present.
- Ci.ContainerInstanceScanner.Scan: the precondition requires every listed resource to have a name, type and location, because the source dereferences them unchecked. The same holds for the Vmss, Sigr and Nsg scans; the Nsg scan also requires an id.
- Advisor.AdvisorScanner.ListRecommendations: its `Readable` precondition requires every drained recommendation to have properties. The source dereferences `Properties` with no nil check, so a nil `Properties` makes it panic; the model excludes that input instead of modelling the panic. `Advisor.AdvisorScanner.Scan` and `Advisor.Listed` carry the same precondition.
- The report renderers and the command-line front end are not part of this model.
