/** The rule table of the AKS (managed cluster) scanner and its fifteen
    predicates. A predicate that dereferences a field without a nil check
    requires that field to be present. */
module AksRules {
  import opened Wrappers
  import opened GoStrings
  import opened Azqr

  // Values of the SDK constants the predicates compare against.
  const OutboundTypeUserDefinedRouting := "userDefinedRouting"
  const NetworkPluginKubenet := "kubenet"

  // Category, subcategory and severity constants of the rule records.
  const RulesCategoryReliability := "Reliability"
  const RulesCategorySecurity := "Security"
  const RulesCategoryOperationalExcellence := "Operational Excellence"
  const RulesCategoryPerformanceEfficiency := "Performance Efficiency"
  const RulesSubcategoryReliabilityDiagnosticLogs := "Diagnostic Logs"
  const RulesSubcategoryReliabilityAvailabilityZones := "Availability Zones"
  const RulesSubcategoryReliabilitySLA := "SLA"
  const RulesSubcategoryReliabilitySKU := "SKU"
  const RulesSubcategoryReliabilityMonitoring := "Monitoring"
  const RulesSubcategoryReliabilityScaling := "Scaling"
  const RulesSubcategorySecurityPrivateEndpoint := "Private Endpoint"
  const RulesSubcategorySecurityIdentity := "Identity and Access Control"
  const RulesSubcategorySecurityNetworking := "Networking"
  const RulesSubcategoryPerformanceEfficiencyNetworking := "Networking"
  const RulesSubcategoryOperationalExcellenceCAF := "Naming Convention (CAF)"
  const RulesSubcategoryOperationalExcellenceTags := "Tags"
  const SeverityLow := "Low"
  const SeverityMedium := "Medium"
  const SeverityHigh := "High"

  datatype AgentPoolProfile = AgentPoolProfile(
    availabilityZones: Option<seq<string>>,
    enableAutoScaling: Option<bool>)

  datatype ApiServerAccessProfile = ApiServerAccessProfile(enablePrivateCluster: Option<bool>)

  datatype AadProfile = AadProfile(managed: Option<bool>)

  datatype AddonProfile = AddonProfile(enabled: Option<bool>)

  datatype NetworkProfile = NetworkProfile(
    outboundType: Option<string>,
    networkPlugin: Option<string>)

  datatype ManagedClusterProperties = ManagedClusterProperties(
    agentPoolProfiles: seq<AgentPoolProfile>,
    apiServerAccessProfile: Option<ApiServerAccessProfile>,
    aadProfile: Option<AadProfile>,
    enableRbac: Option<bool>,
    disableLocalAccounts: Option<bool>,
    addonProfiles: map<string, AddonProfile>,
    networkProfile: Option<NetworkProfile>)

  datatype ManagedClusterSku = ManagedClusterSku(name: Option<string>, tier: Option<string>)

  /** `armcontainerservice.ManagedCluster`, as far as the rules read it. */
  datatype ManagedCluster = ManagedCluster(
    id: Option<string>,
    name: Option<string>,
    sku: Option<ManagedClusterSku>,
    tags: Option<map<string, Option<string>>>,
    properties: Option<ManagedClusterProperties>)

  // ---------------------------------------------------------------- aks-001

  /** aks-001: broken when the cluster has no diagnostic settings. */
  function DiagnosticSettings(c: ManagedCluster, hasDiagnostics: DiagnosticsChecker): (r: Verdict)
    requires DiagnosticsAnswered(c.id, hasDiagnostics)
    ensures r.broken <==> hasDiagnostics(c.id.value) == Success(false)
    ensures r.detail == ""
  {
    Verdict(!hasDiagnostics(c.id.value).value, "")
  }

  // ------------------------------------------------------- aks-002, aks-003

  /** A pool whose zone list is nil or has at most one zone. */
  predicate LacksZones(p: AgentPoolProfile) {
    p.availabilityZones.None? || |p.availabilityZones.value| <= 1
  }

  /** Every agent pool spans at least two zones (vacuously true with no
      pools): the value the `zones` flag ends with. */
  predicate AllPoolsZoned(profiles: seq<AgentPoolProfile>) {
    forall i :: 0 <= i < |profiles| ==> !LacksZones(profiles[i])
  }

  /** The loop shared by aks-002 and aks-003: start with `zones := true` and
      clear it on every pool that lacks zones. */
  method ZonesFlag(profiles: seq<AgentPoolProfile>) returns (zones: bool)
    ensures zones <==> AllPoolsZoned(profiles)
  {
    zones := true;
    for i := 0 to |profiles|
      invariant zones <==> AllPoolsZoned(profiles[..i])
    {
      var profile := profiles[i];
      if profile.availabilityZones.None? || |profile.availabilityZones.value| <= 1 {
        zones := false;
      }
    }
    assert profiles[..|profiles|] == profiles;
  }

  /** aks-002: broken when some agent pool lacks zones. */
  function AvailabilityZones(c: ManagedCluster): (r: Verdict)
    requires c.properties.Some?
    ensures r.broken <==>
      exists i :: 0 <= i < |c.properties.value.agentPoolProfiles| &&
        LacksZones(c.properties.value.agentPoolProfiles[i])
    ensures |c.properties.value.agentPoolProfiles| == 0 ==> !r.broken
    ensures r.detail == ""
  {
    Verdict(!AllPoolsZoned(c.properties.value.agentPoolProfiles), "")
  }

  /** The Go closure of aks-002, with its loop. */
  method EvalAvailabilityZones(c: ManagedCluster) returns (r: Verdict)
    requires c.properties.Some?
    ensures r == AvailabilityZones(c)
  {
    var zones := ZonesFlag(c.properties.value.agentPoolProfiles);
    r := Verdict(!zones, "");
  }

  /** The SKU tier, "Free" when the SKU or its tier is nil. */
  function Tier(c: ManagedCluster): (tier: string)
    ensures c.sku.None? || c.sku.value.tier.None? ==> tier == "Free"
    ensures c.sku.Some? && c.sku.value.tier.Some? ==> tier == c.sku.value.tier.value
  {
    if c.sku.Some? && c.sku.value.tier.Some? then c.sku.value.tier.value else "Free"
  }

  /** aks-003: the uptime SLA. A tier containing "Free" has none ("None",
      broken); otherwise it is 99.95% when every pool is zoned and 99.9% when
      not, and the rule passes. */
  function Sla(c: ManagedCluster): (r: Verdict)
    requires c.properties.Some?
    ensures r.broken <==> r.detail == "None"
    ensures Contains(Tier(c), "Free") ==> r.detail == "None"
    ensures !Contains(Tier(c), "Free") && AllPoolsZoned(c.properties.value.agentPoolProfiles) ==>
      r.detail == "99.95%"
    ensures !Contains(Tier(c), "Free") && !AllPoolsZoned(c.properties.value.agentPoolProfiles) ==>
      r.detail == "99.9%"
  {
    var zones := AllPoolsZoned(c.properties.value.agentPoolProfiles);
    var sku := Tier(c);
    var sla := if !Contains(sku, "Free") then (if zones then "99.95%" else "99.9%") else "None";
    Verdict(sla == "None", sla)
  }

  /** The Go closure of aks-003, with its loop. */
  method EvalSla(c: ManagedCluster) returns (r: Verdict)
    requires c.properties.Some?
    ensures r == Sla(c)
  {
    var zones := ZonesFlag(c.properties.value.agentPoolProfiles);
    var sku := "Free";
    if c.sku.Some? && c.sku.value.tier.Some? {
      sku := c.sku.value.tier.value;
    }
    var sla := "None";
    if !Contains(sku, "Free") {
      sla := "99.9%";
      if zones {
        sla := "99.95%";
      }
    }
    r := Verdict(sla == "None", sla);
  }

  // ---------------------------------------------------------------- aks-004

  /** aks-004: broken unless the API server is explicitly private. */
  function Private(c: ManagedCluster): (r: Verdict)
    requires c.properties.Some?
    ensures !r.broken <==>
      var ap := c.properties.value.apiServerAccessProfile;
      ap.Some? && ap.value.enablePrivateCluster == Some(true)
    ensures r.detail == ""
  {
    var ap := c.properties.value.apiServerAccessProfile;
    var pe := ap.Some? && ap.value.enablePrivateCluster.Some? && ap.value.enablePrivateCluster.value;
    Verdict(!pe, "")
  }

  // ---------------------------------------------------------------- aks-005

  /** aks-005: the detail is the tier; broken when it is exactly "Free". */
  function Sku(c: ManagedCluster): (r: Verdict)
    ensures r.detail == Tier(c)
    ensures r.broken <==> Tier(c) == "Free"
  {
    var sku := Tier(c);
    Verdict(sku == "Free", sku)
  }

  // ---------------------------------------------------------------- aks-006

  /** aks-006: broken when the name lacks the "aks" prefix. */
  function Caf(c: ManagedCluster): (r: Verdict)
    requires c.name.Some?
    ensures r.broken <==> !(|c.name.value| >= 3 && c.name.value[..3] == "aks")
    ensures r.detail == ""
  {
    Verdict(!HasPrefix(c.name.value, "aks"), "")
  }

  // ------------------------------------------------------- aks-007 .. 009

  /** aks-007: broken unless AAD integration is explicitly managed. */
  function ManagedAad(c: ManagedCluster): (r: Verdict)
    requires c.properties.Some?
    ensures !r.broken <==>
      var aad := c.properties.value.aadProfile;
      aad.Some? && aad.value.managed == Some(true)
    ensures r.detail == ""
  {
    var p := c.properties.value.aadProfile;
    var aad := p.Some? && p.value.managed.Some? && p.value.managed.value;
    Verdict(!aad, "")
  }

  /** aks-008: broken when RBAC is disabled (the flag is dereferenced). */
  function Rbac(c: ManagedCluster): (r: Verdict)
    requires c.properties.Some? && c.properties.value.enableRbac.Some?
    ensures r.broken <==> c.properties.value.enableRbac == Some(false)
    ensures r.detail == ""
  {
    Verdict(!c.properties.value.enableRbac.value, "")
  }

  /** aks-009: broken unless local accounts are explicitly disabled. */
  function LocalAccounts(c: ManagedCluster): (r: Verdict)
    requires c.properties.Some?
    ensures !r.broken <==> c.properties.value.disableLocalAccounts == Some(true)
    ensures r.detail == ""
  {
    var d := c.properties.value.disableLocalAccounts;
    if d.Some? && d.value then Verdict(false, "") else Verdict(true, "")
  }

  // ------------------------------------------------------- aks-010, aks-011

  /** The named add-on, when configured, says whether it is enabled (its
      flag is dereferenced). */
  predicate AddonFlagPresent(c: ManagedCluster, addon: string)
    requires c.properties.Some?
  {
    addon in c.properties.value.addonProfiles ==>
      c.properties.value.addonProfiles[addon].enabled.Some?
  }

  /** The named add-on is configured and enabled. */
  predicate AddonEnabled(c: ManagedCluster, addon: string)
    requires c.properties.Some?
  {
    addon in c.properties.value.addonProfiles &&
    c.properties.value.addonProfiles[addon].enabled == Some(true)
  }

  /** aks-010: broken when the HTTP application routing add-on is enabled. */
  function HttpApplicationRouting(c: ManagedCluster): (r: Verdict)
    requires c.properties.Some? && AddonFlagPresent(c, "httpApplicationRouting")
    ensures r.broken <==> AddonEnabled(c, "httpApplicationRouting")
    ensures r.detail == ""
  {
    var addons := c.properties.value.addonProfiles;
    var exists_ := "httpApplicationRouting" in addons;
    var broken := exists_ && addons["httpApplicationRouting"].enabled.value;
    Verdict(broken, "")
  }

  /** aks-011: broken unless the monitoring agent add-on is enabled. */
  function ContainerInsights(c: ManagedCluster): (r: Verdict)
    requires c.properties.Some? && AddonFlagPresent(c, "omsagent")
    ensures r.broken <==> !AddonEnabled(c, "omsagent")
    ensures r.detail == ""
  {
    var addons := c.properties.value.addonProfiles;
    var exists_ := "omsagent" in addons;
    var broken := !exists_ || !addons["omsagent"].enabled.value;
    Verdict(broken, "")
  }

  // ------------------------------------------------------- aks-012, aks-013

  predicate HasNetworkProfile(c: ManagedCluster) {
    c.properties.Some? && c.properties.value.networkProfile.Some?
  }

  /** aks-012: broken unless outbound traffic uses user-defined routing. */
  function OutboundType(c: ManagedCluster): (r: Verdict)
    requires HasNetworkProfile(c) && c.properties.value.networkProfile.value.outboundType.Some?
    ensures r.broken <==>
      c.properties.value.networkProfile.value.outboundType != Some(OutboundTypeUserDefinedRouting)
    ensures r.detail == ""
  {
    var out := c.properties.value.networkProfile.value.outboundType.value == OutboundTypeUserDefinedRouting;
    Verdict(!out, "")
  }

  /** aks-013: broken when the kubenet network plugin is used. */
  function Kubenet(c: ManagedCluster): (r: Verdict)
    requires HasNetworkProfile(c) && c.properties.value.networkProfile.value.networkPlugin.Some?
    ensures r.broken <==>
      c.properties.value.networkProfile.value.networkPlugin == Some(NetworkPluginKubenet)
    ensures r.detail == ""
  {
    var out := c.properties.value.networkProfile.value.networkPlugin.value == NetworkPluginKubenet;
    Verdict(out, "")
  }

  // ---------------------------------------------------------------- aks-014

  /** aks-014: only the first agent pool is consulted; broken when there is
      none or its autoscaling flag is nil or false. */
  function Autoscaler(c: ManagedCluster): (r: Verdict)
    requires c.properties.Some?
    ensures var ps := c.properties.value.agentPoolProfiles;
      !r.broken <==> |ps| > 0 && ps[0].enableAutoScaling == Some(true)
    ensures r.detail == ""
  {
    var ps := c.properties.value.agentPoolProfiles;
    if |ps| == 0 then Verdict(true, "")
    else if ps[0].enableAutoScaling.Some? then Verdict(!ps[0].enableAutoScaling.value, "")
    else Verdict(true, "")
  }

  /** The Go closure of aks-014: a loop that returns on its first pool. */
  method EvalAutoscaler(c: ManagedCluster) returns (r: Verdict)
    requires c.properties.Some?
    ensures r == Autoscaler(c)
  {
    var ps := c.properties.value.agentPoolProfiles;
    for i := 0 to |ps|
      invariant i == 0
    {
      var p := ps[i];
      if p.enableAutoScaling.Some? {
        return Verdict(!p.enableAutoScaling.value, "");
      } else {
        return Verdict(true, "");
      }
    }
    return Verdict(true, "");
  }

  // ---------------------------------------------------------------- aks-015

  /** aks-015: broken when the tag map is nil or empty. */
  function Tags(c: ManagedCluster): (r: Verdict)
    ensures r.broken <==> (c.tags.None? || c.tags.value == map[])
    ensures r.detail == ""
  {
    Verdict(c.tags.None? || |c.tags.value| == 0, "")
  }

  // ------------------------------------------------------------ the table

  // One record per entry of the source's map literal.

  function DiagnosticSettingsRule(hasDiagnostics: DiagnosticsChecker): AzureRule<ManagedCluster> {
    AzureRule(
      "aks-001", RulesCategoryReliability, RulesSubcategoryReliabilityDiagnosticLogs,
      "AKS Cluster should have diagnostic settings enabled", SeverityMedium,
      (c: ManagedCluster, ctx: ScanContext) requires DiagnosticsAnswered(c.id, hasDiagnostics) =>
        DiagnosticSettings(c, hasDiagnostics),
      "https://learn.microsoft.com/en-us/azure/aks/monitor-aks#collect-resource-logs")
  }

  function AvailabilityZonesRule(): AzureRule<ManagedCluster> {
    AzureRule(
      "aks-002", RulesCategoryReliability, RulesSubcategoryReliabilityAvailabilityZones,
      "AKS Cluster should have availability zones enabled", SeverityHigh,
      (c: ManagedCluster, ctx: ScanContext) requires c.properties.Some? => AvailabilityZones(c),
      "https://learn.microsoft.com/en-us/azure/aks/availability-zones")
  }

  function SlaRule(): AzureRule<ManagedCluster> {
    AzureRule(
      "aks-003", RulesCategoryReliability, RulesSubcategoryReliabilitySLA,
      "AKS Cluster should have an SLA", SeverityHigh,
      (c: ManagedCluster, ctx: ScanContext) requires c.properties.Some? => Sla(c),
      "https://learn.microsoft.com/en-us/azure/aks/free-standard-pricing-tiers#uptime-sla-terms-and-conditions")
  }

  function PrivateRule(): AzureRule<ManagedCluster> {
    AzureRule(
      "aks-004", RulesCategorySecurity, RulesSubcategorySecurityPrivateEndpoint,
      "AKS Cluster should be private", SeverityHigh,
      (c: ManagedCluster, ctx: ScanContext) requires c.properties.Some? => Private(c),
      "https://learn.microsoft.com/en-us/azure/aks/private-clusters")
  }

  function SkuRule(): AzureRule<ManagedCluster> {
    AzureRule(
      "aks-005", RulesCategoryReliability, RulesSubcategoryReliabilitySKU,
      "AKS Production Cluster should use Standard SKU", SeverityHigh,
      (c: ManagedCluster, ctx: ScanContext) => Sku(c),
      "https://learn.microsoft.com/en-us/azure/aks/free-standard-pricing-tiers")
  }

  function CafRule(): AzureRule<ManagedCluster> {
    AzureRule(
      "aks-006", RulesCategoryOperationalExcellence, RulesSubcategoryOperationalExcellenceCAF,
      "AKS Name should comply with naming conventions", SeverityLow,
      (c: ManagedCluster, ctx: ScanContext) requires c.name.Some? => Caf(c),
      "https://learn.microsoft.com/en-us/azure/cloud-adoption-framework/ready/azure-best-practices/resource-abbreviations")
  }

  function ManagedAadRule(): AzureRule<ManagedCluster> {
    AzureRule(
      "aks-007", RulesCategorySecurity, RulesSubcategorySecurityIdentity,
      "AKS should integrate authentication with AAD (Managed)", SeverityMedium,
      (c: ManagedCluster, ctx: ScanContext) requires c.properties.Some? => ManagedAad(c),
      "https://learn.microsoft.com/en-us/azure/aks/managed-azure-ad")
  }

  function RbacRule(): AzureRule<ManagedCluster> {
    AzureRule(
      "aks-008", RulesCategorySecurity, RulesSubcategorySecurityIdentity,
      "AKS should be RBAC enabled.", SeverityMedium,
      (c: ManagedCluster, ctx: ScanContext)
        requires c.properties.Some? && c.properties.value.enableRbac.Some? => Rbac(c),
      "https://learn.microsoft.com/azure/aks/manage-azure-rbac")
  }

  function LocalAccountsRule(): AzureRule<ManagedCluster> {
    AzureRule(
      "aks-009", RulesCategorySecurity, RulesSubcategorySecurityIdentity,
      "AKS should have local accounts disabled", SeverityMedium,
      (c: ManagedCluster, ctx: ScanContext) requires c.properties.Some? => LocalAccounts(c),
      "https://learn.microsoft.com/azure/aks/managed-aad#disable-local-accounts")
  }

  function HttpApplicationRoutingRule(): AzureRule<ManagedCluster> {
    AzureRule(
      "aks-010", RulesCategorySecurity, "Best Practices",
      "AKS should have httpApplicationRouting disabled", SeverityMedium,
      (c: ManagedCluster, ctx: ScanContext)
        requires c.properties.Some? && AddonFlagPresent(c, "httpApplicationRouting") =>
        HttpApplicationRouting(c),
      "https://learn.microsoft.com/azure/aks/http-application-routing")
  }

  function ContainerInsightsRule(): AzureRule<ManagedCluster> {
    AzureRule(
      "aks-011", RulesCategoryReliability, RulesSubcategoryReliabilityMonitoring,
      "AKS should have Container Insights enabled", SeverityMedium,
      (c: ManagedCluster, ctx: ScanContext)
        requires c.properties.Some? && AddonFlagPresent(c, "omsagent") => ContainerInsights(c),
      "https://learn.microsoft.com/azure/azure-monitor/insights/container-insights-overview")
  }

  function OutboundTypeRule(): AzureRule<ManagedCluster> {
    AzureRule(
      "aks-012", RulesCategorySecurity, RulesSubcategorySecurityNetworking,
      "AKS should have outbound type set to user defined routing", SeverityHigh,
      (c: ManagedCluster, ctx: ScanContext)
        requires HasNetworkProfile(c) && c.properties.value.networkProfile.value.outboundType.Some? =>
        OutboundType(c),
      "https://learn.microsoft.com/azure/aks/limit-egress-traffic")
  }

  function KubenetRule(): AzureRule<ManagedCluster> {
    AzureRule(
      "aks-013", RulesCategoryPerformanceEfficiency, RulesSubcategoryPerformanceEfficiencyNetworking,
      "AKS should avoid using kubenet network plugin", SeverityMedium,
      (c: ManagedCluster, ctx: ScanContext)
        requires HasNetworkProfile(c) && c.properties.value.networkProfile.value.networkPlugin.Some? =>
        Kubenet(c),
      "https://learn.microsoft.com/azure/aks/operator-best-practices-network")
  }

  function AutoscalerRule(): AzureRule<ManagedCluster> {
    AzureRule(
      "aks-014", RulesCategoryOperationalExcellence, RulesSubcategoryReliabilityScaling,
      "AKS should have autoscaler enabled", SeverityMedium,
      (c: ManagedCluster, ctx: ScanContext) requires c.properties.Some? => Autoscaler(c),
      "https://learn.microsoft.com/azure/aks/concepts-scale")
  }

  function TagsRule(): AzureRule<ManagedCluster> {
    AzureRule(
      "aks-015", RulesCategoryOperationalExcellence, RulesSubcategoryOperationalExcellenceTags,
      "AKS should have tags", SeverityLow,
      (c: ManagedCluster, ctx: ScanContext) => Tags(c),
      "https://learn.microsoft.com/en-us/azure/azure-resource-manager/management/tag-resources?tabs=json")
  }

  /** `GetRules`: the table of the AKS scanner, keyed as in the source. */
  function GetRules(hasDiagnostics: DiagnosticsChecker): (t: map<string, AzureRule<ManagedCluster>>)
    ensures t.Keys == RuleKeys
  {
    map[
      "DiagnosticSettings" := DiagnosticSettingsRule(hasDiagnostics),
      "AvailabilityZones" := AvailabilityZonesRule(),
      "SLA" := SlaRule(),
      "Private" := PrivateRule(),
      "SKU" := SkuRule(),
      "CAF" := CafRule(),
      "aks-007" := ManagedAadRule(),
      "aks-008" := RbacRule(),
      "aks-009" := LocalAccountsRule(),
      "aks-010" := HttpApplicationRoutingRule(),
      "aks-011" := ContainerInsightsRule(),
      "aks-012" := OutboundTypeRule(),
      "aks-013" := KubenetRule(),
      "aks-014" := AutoscalerRule(),
      "aks-015" := TagsRule()
    ]
  }

  // ------------------------------------------------------------ properties

  /** The cluster is on the free tier when it declares no tier at all, so it
      fails both the SLA and the SKU rule. */
  lemma MissingTierIsFree(c: ManagedCluster)
    requires c.properties.Some?
    requires c.sku.None? || c.sku.value.tier.None?
    ensures Sla(c).broken && Sla(c).detail == "None"
    ensures Sku(c).broken && Sku(c).detail == "Free"
  {
    ContainsItself("Free");
  }

  /** aks-005 compares the tier by equality and aks-003 by containment: a
      cluster failing aks-005 fails aks-003, but not the other way round. */
  lemma SkuBrokenImpliesSlaBroken(c: ManagedCluster)
    requires c.properties.Some?
    ensures Sku(c).broken ==> Sla(c).broken
  {
    ContainsItself("Free");
  }

  lemma SlaBrokenWithoutSkuBroken(c: ManagedCluster)
    requires c.properties.Some?
    requires c.sku == Some(ManagedClusterSku(None, Some("NotFree")))
    ensures Sla(c).broken && !Sku(c).broken
  {
    assert OccursAt("NotFree", "Free", 3);
    ContainsIffOccurs("NotFree", "Free");
  }

  /** A paid cluster with one single-zone pool fails aks-002 and reports a
      99.9% SLA; with every pool in two or more zones it reports 99.95%. */
  lemma SingleZonePoolScenario(c: ManagedCluster, tier: string)
    requires c.properties.Some? && !Contains(tier, "Free")
    requires c.sku == Some(ManagedClusterSku(None, Some(tier)))
    ensures (exists i :: 0 <= i < |c.properties.value.agentPoolProfiles| &&
              c.properties.value.agentPoolProfiles[i].availabilityZones.Some? &&
              |c.properties.value.agentPoolProfiles[i].availabilityZones.value| == 1) ==>
      AvailabilityZones(c).broken && Sla(c) == Verdict(false, "99.9%")
    ensures (forall i :: 0 <= i < |c.properties.value.agentPoolProfiles| ==>
              c.properties.value.agentPoolProfiles[i].availabilityZones.Some? &&
              |c.properties.value.agentPoolProfiles[i].availabilityZones.value| >= 2) ==>
      !AvailabilityZones(c).broken && Sla(c) == Verdict(false, "99.95%")
  {
  }

  /** The key under which the source files each rule id; `GetRules` is
      proved below to file every rule under this key. */
  function KeyOfId(id: string): string {
    match id
    case "aks-001" => "DiagnosticSettings"
    case "aks-002" => "AvailabilityZones"
    case "aks-003" => "SLA"
    case "aks-004" => "Private"
    case "aks-005" => "SKU"
    case "aks-006" => "CAF"
    case _ => id
  }

  const RuleKeys: set<string> :=
    {"DiagnosticSettings", "AvailabilityZones", "SLA", "Private", "SKU", "CAF",
     "aks-007", "aks-008", "aks-009", "aks-010", "aks-011", "aks-012",
     "aks-013", "aks-014", "aks-015"}

  const RuleIds: set<string> :=
    {"aks-001", "aks-002", "aks-003", "aks-004", "aks-005", "aks-006", "aks-007", "aks-008",
     "aks-009", "aks-010", "aks-011", "aks-012", "aks-013", "aks-014", "aks-015"}

  lemma RuleKeysCount()
    ensures |RuleKeys| == 15
  {
  }

  /** The table holds fifteen rules, keyed as in the source. */
  lemma GetRulesCount(hasDiagnostics: DiagnosticsChecker)
    ensures GetRules(hasDiagnostics).Keys == RuleKeys
    ensures |GetRules(hasDiagnostics)| == 15
  {
    RuleKeysCount();
    assert GetRules(hasDiagnostics).Keys == RuleKeys;
  }

  /** Every rule's id is one of aks-001 .. aks-015 and determines the key it
      is filed under. */
  lemma GetRulesKeyOfId(hasDiagnostics: DiagnosticsChecker)
    ensures var t := GetRules(hasDiagnostics);
      forall k :: k in t ==> t[k].id in RuleIds && KeyOfId(t[k].id) == k
  {
    var t := GetRules(hasDiagnostics);
    assert t["DiagnosticSettings"].id == "aks-001";
    assert t["AvailabilityZones"].id == "aks-002";
    assert t["SLA"].id == "aks-003";
    assert t["Private"].id == "aks-004";
    assert t["SKU"].id == "aks-005";
    assert t["CAF"].id == "aks-006";
    assert t["aks-007"].id == "aks-007";
    assert t["aks-008"].id == "aks-008";
    assert t["aks-009"].id == "aks-009";
    assert t["aks-010"].id == "aks-010";
    assert t["aks-011"].id == "aks-011";
    assert t["aks-012"].id == "aks-012";
    assert t["aks-013"].id == "aks-013";
    assert t["aks-014"].id == "aks-014";
    assert t["aks-015"].id == "aks-015";
  }

  /** No two rules of the table share an id. */
  lemma GetRulesIdsDistinct(hasDiagnostics: DiagnosticsChecker)
    ensures var t := GetRules(hasDiagnostics);
      forall k1, k2 :: k1 in t && k2 in t && t[k1].id == t[k2].id ==> k1 == k2
  {
    GetRulesKeyOfId(hasDiagnostics);
  }
}
