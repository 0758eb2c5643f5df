/** Shared records of the scanners: the scan context, rule records, scanner
    configuration and the per-resource result row. */
module Azqr {
  import opened Wrappers

  /** An error value returned by an SDK call (pager page, client constructor,
      diagnostics lookup). Only its identity matters to the model. */
  datatype Error = Error(message: string)

  /** The scanners' diagnostics-settings checker: `HasDiagnostics(id)` gives
      a flag or an error. */
  type DiagnosticsChecker = string -> Result<bool, Error>

  /** The checker gives an answer for the resource id (an error there ends
      the process). */
  predicate DiagnosticsAnswered(id: Option<string>, hasDiagnostics: DiagnosticsChecker) {
    id.Some? && hasDiagnostics(id.value).Success?
  }

  /** The scan context handed to every rule. `diagnosticsSettings` is keyed by
      lower-cased resource id; presence of a key means "has diagnostics". */
  datatype ScanContext = ScanContext(diagnosticsSettings: map<string, bool>)

  /** What a rule's `Eval` returns: `(broken, detail)`. */
  datatype Verdict = Verdict(broken: bool, detail: string)

  /** `scanners.AzureRule`: the rule record of the AKS and Event Hub tables. */
  datatype AzureRule<!T> = AzureRule(
    id: string,
    category: string,
    subcategory: string,
    description: string,
    severity: string,
    eval: (T, ScanContext) --> Verdict,
    url: string)

  /** `azqr.RecommendationCategory`, as far as the Databricks table uses it. */
  datatype RecommendationCategory =
    | CategoryMonitoringAndAlerting
    | CategoryHighAvailability
    | CategorySecurity
    | CategoryGovernance

  /** `azqr.RecommendationImpactType`. */
  datatype Impact = ImpactLow | ImpactMedium | ImpactHigh

  /** `azqr.AzqrRecommendation`: the rule record of the Databricks table. */
  datatype AzqrRecommendation<!T> = AzqrRecommendation(
    recommendationId: string,
    resourceType: string,
    category: RecommendationCategory,
    recommendation: string,
    impact: Impact,
    eval: (T, ScanContext) --> Verdict,
    url: string)

  /** `azqr.ScannerConfig`, without its context, credential and client
      options, which only reach the SDK. */
  datatype ScannerConfig = ScannerConfig(subscriptionId: string, subscriptionName: string)

  /** A listed ARM resource: the fields the scanners stamp on a result, and
      the service-specific properties, which the scanners do not read but
      hand on, with the rest of the resource, to the rule evaluation. */
  datatype ArmResource = ArmResource(
    id: Option<string>,
    name: Option<string>,
    resourceType: Option<string>,
    location: Option<string>,
    properties: map<string, string>)

  /** A listed resource whose name, type and location a scanner can
      dereference. */
  predicate Stampable(r: ArmResource) {
    r.name.Some? && r.resourceType.Some? && r.location.Some?
  }

  /** The result of `RecommendationEngine.EvaluateRecommendations`: one
      verdict per rule key. */
  type Evaluations = map<string, Verdict>

  /** `engine.EvaluateRecommendations(rules, resource, scanContext)` with the
      scanner's own rule table: the engine and the table are not part of this
      model, so a scanner receives their combination as a function. */
  type Evaluator = (ArmResource, ScanContext) -> Evaluations

  /** `azqr.AzqrServiceResult`: one row per scanned resource. */
  datatype ServiceResult = ServiceResult(
    subscriptionId: string,
    subscriptionName: string,
    resourceGroup: string,
    serviceName: string,
    serviceType: string,
    location: string,
    recommendations: Evaluations)

  /** `row` is the result a scanner emits for `item`: stamped with the
      configured subscription, the given resource group, the item's own name,
      type and location, and the engine's evaluations of the item. */
  predicate IsRowFor(row: ServiceResult, config: ScannerConfig, resourceGroup: string,
                     item: ArmResource, recommendations: Evaluations)
    requires Stampable(item)
  {
    && row.subscriptionId == config.subscriptionId
    && row.subscriptionName == config.subscriptionName
    && row.resourceGroup == resourceGroup
    && row.serviceName == item.name.value
    && row.serviceType == item.resourceType.value
    && row.location == item.location.value
    && row.recommendations == recommendations
  }
}
