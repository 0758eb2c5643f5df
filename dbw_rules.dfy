/** The recommendation table of the Databricks workspace scanner and its six
    predicates. */
module DbwRules {
  import opened Wrappers
  import opened GoStrings
  import opened Azqr

  const WorkspaceResourceType := "Microsoft.Databricks/workspaces"

  /** A Go `*bool` that is not nil: the address it holds and the value stored
      there. Go's `==` on pointers compares addresses only. */
  datatype BoolPtr = BoolPtr(address: nat, pointee: bool)

  /** `WorkspaceCustomBooleanParameter`: its `Value` is a `*bool`. */
  datatype BooleanParameter = BooleanParameter(value: Option<BoolPtr>)

  datatype WorkspaceCustomParameters = WorkspaceCustomParameters(
    enableNoPublicIp: Option<BooleanParameter>)

  datatype PrivateEndpointConnection = PrivateEndpointConnection(id: Option<string>)

  datatype WorkspaceProperties = WorkspaceProperties(
    privateEndpointConnections: seq<PrivateEndpointConnection>,
    parameters: Option<WorkspaceCustomParameters>)

  datatype WorkspaceSku = WorkspaceSku(name: Option<string>, tier: Option<string>)

  /** `armdatabricks.Workspace`, as far as the rules read it. */
  datatype Workspace = Workspace(
    id: Option<string>,
    name: Option<string>,
    sku: Option<WorkspaceSku>,
    properties: Option<WorkspaceProperties>)

  /** dbw-001: broken when the lower-cased id is not a key of the scan
      context's diagnostics settings. */
  function DiagnosticSettings(w: Workspace, ctx: ScanContext): (r: Verdict)
    requires w.id.Some?
    ensures r.broken <==> ToLower(w.id.value) !in ctx.diagnosticsSettings
    ensures r.detail == ""
  {
    var ok := ToLower(w.id.value) in ctx.diagnosticsSettings;
    Verdict(!ok, "")
  }

  /** dbw-001 looks ids up case-insensitively: two workspaces whose ids differ
      only in letter case get the same verdict. */
  lemma DiagnosticSettingsIgnoresCase(w1: Workspace, w2: Workspace, ctx: ScanContext)
    requires w1.id.Some? && w2.id.Some? && SameUpToCase(w1.id.value, w2.id.value)
    ensures DiagnosticSettings(w1, ctx) == DiagnosticSettings(w2, ctx)
  {
    ToLowerSameUpToCase(w1.id.value, w2.id.value);
  }

  /** An id that matches an indexed id up to letter case passes dbw-001. */
  lemma DiagnosticSettingsIndexed(w: Workspace, ctx: ScanContext, indexedId: string)
    requires w.id.Some? && SameUpToCase(w.id.value, indexedId)
    requires ToLower(indexedId) in ctx.diagnosticsSettings
    ensures !DiagnosticSettings(w, ctx).broken
  {
    ToLowerSameUpToCase(w.id.value, indexedId);
  }

  /** dbw-003: informational; the workspace SLA is always 99.95%. */
  function Sla(w: Workspace, ctx: ScanContext): (r: Verdict)
    ensures !r.broken && r.detail == "99.95%"
  {
    Verdict(false, "99.95%")
  }

  /** dbw-004: broken when the workspace has no private endpoint connection. */
  function PrivateEndpoint(w: Workspace): (r: Verdict)
    requires w.properties.Some?
    ensures r.broken <==> w.properties.value.privateEndpointConnections == []
    ensures r.detail == ""
  {
    var pe := |w.properties.value.privateEndpointConnections| > 0;
    Verdict(!pe, "")
  }

  predicate HasSkuName(w: Workspace) {
    w.sku.Some? && w.sku.value.name.Some?
  }

  /** dbw-005: informational; reports the SKU name. */
  function Sku(w: Workspace): (r: Verdict)
    requires HasSkuName(w)
    ensures !r.broken && r.detail == w.sku.value.name.value
  {
    Verdict(false, w.sku.value.name.value)
  }

  /** dbw-006: broken when the name lacks the "dbw" prefix. */
  function Caf(w: Workspace): (r: Verdict)
    requires w.name.Some?
    ensures r.broken <==> !(|w.name.value| >= 3 && w.name.value[..3] == "dbw")
    ensures r.detail == ""
  {
    var caf := HasPrefix(w.name.value, "dbw");
    Verdict(!caf, "")
  }

  /** Go's `==` on two `*bool` values: both nil, or the same address. */
  predicate SamePointer(p: Option<BoolPtr>, q: Option<BoolPtr>) {
    match (p, q)
    case (None, None) => true
    case (Some(a), Some(b)) => a.address == b.address
    case _ => false
  }

  /** `to.Ptr(b)` allocates a new `*bool`: its address is distinct from the
      one the workspace already holds. */
  function NewBoolPtr(w: Workspace, b: bool): (p: BoolPtr)
    requires w.properties.Some? && w.properties.value.parameters.Some?
    ensures p.pointee == b
    ensures var e := w.properties.value.parameters.value.enableNoPublicIp;
      e.Some? && e.value.value.Some? ==> p.address != e.value.value.value.address
  {
    var e := w.properties.value.parameters.value.enableNoPublicIp;
    if e.Some? && e.value.value.Some? then BoolPtr(e.value.value.value.address + 1, b)
    else BoolPtr(0, b)
  }

  /** dbw-007: compares the `EnableNoPublicIP` value with a freshly allocated
      `true` by address, so it is never broken, whatever the flag holds. */
  function NoPublicIp(w: Workspace): (r: Verdict)
    requires w.properties.Some? && w.properties.value.parameters.Some?
    ensures !r.broken && r.detail == ""
  {
    var e := w.properties.value.parameters.value.enableNoPublicIp;
    var broken := e.Some? && SamePointer(e.value.value, Some(NewBoolPtr(w, true)));
    Verdict(broken, "")
  }

  // ------------------------------------------------------------ the table

  // One record per entry of the source's map literal.

  function DiagnosticSettingsRecommendation(): AzqrRecommendation<Workspace> {
    AzqrRecommendation(
      "dbw-001", WorkspaceResourceType, CategoryMonitoringAndAlerting,
      "Azure Databricks should have diagnostic settings enabled", ImpactLow,
      (w: Workspace, ctx: ScanContext) requires w.id.Some? => DiagnosticSettings(w, ctx),
      "https://learn.microsoft.com/en-us/azure/databricks/administration-guide/account-settings/audit-log-delivery")
  }

  function SlaRecommendation(): AzqrRecommendation<Workspace> {
    AzqrRecommendation(
      "dbw-003", WorkspaceResourceType, CategoryHighAvailability,
      "Azure Databricks should have a SLA", ImpactHigh,
      (w: Workspace, ctx: ScanContext) => Sla(w, ctx),
      "https://www.microsoft.com/licensing/docs/view/Service-Level-Agreements-SLA-for-Online-Services")
  }

  function PrivateEndpointRecommendation(): AzqrRecommendation<Workspace> {
    AzqrRecommendation(
      "dbw-004", WorkspaceResourceType, CategorySecurity,
      "Azure Databricks should have private endpoints enabled", ImpactHigh,
      (w: Workspace, ctx: ScanContext) requires w.properties.Some? => PrivateEndpoint(w),
      "https://learn.microsoft.com/en-us/azure/databricks/administration-guide/cloud-configurations/azure/private-link")
  }

  function SkuRecommendation(): AzqrRecommendation<Workspace> {
    AzqrRecommendation(
      "dbw-005", WorkspaceResourceType, CategoryHighAvailability,
      "Azure Databricks SKU", ImpactHigh,
      (w: Workspace, ctx: ScanContext) requires HasSkuName(w) => Sku(w),
      "https://azure.microsoft.com/en-us/pricing/details/databricks/")
  }

  function CafRecommendation(): AzqrRecommendation<Workspace> {
    AzqrRecommendation(
      "dbw-006", WorkspaceResourceType, CategoryGovernance,
      "Azure Databricks Name should comply with naming conventions", ImpactLow,
      (w: Workspace, ctx: ScanContext) requires w.name.Some? => Caf(w),
      "https://learn.microsoft.com/en-us/azure/cloud-adoption-framework/ready/azure-best-practices/resource-abbreviations")
  }

  function NoPublicIpRecommendation(): AzqrRecommendation<Workspace> {
    AzqrRecommendation(
      "dbw-007", WorkspaceResourceType, CategorySecurity,
      "Azure Databricks should have the Public IP disabled", ImpactMedium,
      (w: Workspace, ctx: ScanContext)
        requires w.properties.Some? && w.properties.value.parameters.Some? => NoPublicIp(w),
      "https://learn.microsoft.com/en-us/azure/databricks/security/network/secure-cluster-connectivity")
  }

  /** `GetRecommendations`: the table of the Databricks scanner, with the
      six keys of the source (there is no dbw-002). */
  function GetRecommendations(): (t: map<string, AzqrRecommendation<Workspace>>)
    ensures t.Keys == {"dbw-001", "dbw-003", "dbw-004", "dbw-005", "dbw-006", "dbw-007"}
  {
    map[
      "dbw-001" := DiagnosticSettingsRecommendation(),
      "dbw-003" := SlaRecommendation(),
      "dbw-004" := PrivateEndpointRecommendation(),
      "dbw-005" := SkuRecommendation(),
      "dbw-006" := CafRecommendation(),
      "dbw-007" := NoPublicIpRecommendation()
    ]
  }

  /** Every entry is filed under its own recommendation id and targets the
      workspace resource type. */
  lemma GetRecommendationsWellKeyed()
    ensures var t := GetRecommendations();
      forall k :: k in t ==> t[k].recommendationId == k && t[k].resourceType == WorkspaceResourceType
  {
  }

  /** The informational entries (SLA, SKU) never report a broken workspace,
      and neither does dbw-007, whatever the workspace and context. */
  lemma InformationalNeverBroken(w: Workspace, ctx: ScanContext)
    ensures var t := GetRecommendations();
      && !t["dbw-003"].eval(w, ctx).broken
      && (HasSkuName(w) ==> !t["dbw-005"].eval(w, ctx).broken)
      && (w.properties.Some? && w.properties.value.parameters.Some? ==>
            !t["dbw-007"].eval(w, ctx).broken)
  {
  }
}
