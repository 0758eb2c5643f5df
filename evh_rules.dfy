/** The rule table of the Event Hub namespace scanner and its six
    predicates. */
module EvhRules {
  import opened Wrappers
  import opened GoStrings
  import opened Azqr

  datatype PrivateEndpointConnection = PrivateEndpointConnection(id: Option<string>)

  datatype NamespaceProperties = NamespaceProperties(
    zoneRedundant: Option<bool>,
    privateEndpointConnections: seq<PrivateEndpointConnection>)

  datatype NamespaceSku = NamespaceSku(name: Option<string>, tier: Option<string>)

  /** `armeventhub.EHNamespace`, as far as the rules read it. */
  datatype EHNamespace = EHNamespace(
    id: Option<string>,
    name: Option<string>,
    sku: Option<NamespaceSku>,
    properties: Option<NamespaceProperties>)

  predicate HasSkuName(n: EHNamespace) {
    n.sku.Some? && n.sku.value.name.Some?
  }

  predicate HasZoneFlag(n: EHNamespace) {
    n.properties.Some? && n.properties.value.zoneRedundant.Some?
  }

  /** evh-001: broken when the namespace has no diagnostic settings; the
      detail is the formatted flag. */
  function DiagnosticSettings(n: EHNamespace, hasDiagnostics: DiagnosticsChecker): (r: Verdict)
    requires DiagnosticsAnswered(n.id, hasDiagnostics)
    ensures r.broken <==> hasDiagnostics(n.id.value) == Success(false)
    ensures r.detail == FormatBool(!r.broken)
  {
    var hasDiagnostics := hasDiagnostics(n.id.value).value;
    Verdict(!hasDiagnostics, FormatBool(hasDiagnostics))
  }

  /** evh-002: broken when the namespace is not zone redundant. */
  function AvailabilityZones(n: EHNamespace): (r: Verdict)
    requires HasZoneFlag(n)
    ensures r.broken <==> n.properties.value.zoneRedundant == Some(false)
    ensures r.detail == FormatBool(!r.broken)
  {
    var zones := n.properties.value.zoneRedundant.value;
    Verdict(!zones, FormatBool(zones))
  }

  /** evh-003: informational; 99.95% for a SKU name containing "Basic" or
      "Standard", 99.99% for any other. */
  function Sla(n: EHNamespace): (r: Verdict)
    requires HasSkuName(n)
    ensures !r.broken
    ensures var sku := n.sku.value.name.value;
      r.detail == (if Contains(sku, "Basic") || Contains(sku, "Standard") then "99.95%" else "99.99%")
  {
    var sku := n.sku.value.name.value;
    var sla := if !Contains(sku, "Basic") && !Contains(sku, "Standard") then "99.99%" else "99.95%";
    Verdict(false, sla)
  }

  /** evh-004: broken when the namespace has no private endpoint connection. */
  function PrivateEndpoint(n: EHNamespace): (r: Verdict)
    requires n.properties.Some?
    ensures r.broken <==> n.properties.value.privateEndpointConnections == []
    ensures r.detail == FormatBool(!r.broken)
  {
    var pe := |n.properties.value.privateEndpointConnections| > 0;
    Verdict(!pe, FormatBool(pe))
  }

  /** evh-005: informational; reports the SKU name. */
  function Sku(n: EHNamespace): (r: Verdict)
    requires HasSkuName(n)
    ensures !r.broken && r.detail == n.sku.value.name.value
  {
    Verdict(false, n.sku.value.name.value)
  }

  /** evh-006: broken when the name lacks the "evh" prefix. */
  function Caf(n: EHNamespace): (r: Verdict)
    requires n.name.Some?
    ensures r.broken <==> !(|n.name.value| >= 3 && n.name.value[..3] == "evh")
    ensures r.detail == FormatBool(!r.broken)
  {
    var caf := HasPrefix(n.name.value, "evh");
    Verdict(!caf, FormatBool(caf))
  }

  /** A SKU name containing "Basic" gets the 99.95% SLA; the Premium and
      Dedicated tiers get 99.99%. */
  lemma SlaByTier(n: EHNamespace)
    requires HasSkuName(n)
    ensures Contains(n.sku.value.name.value, "Basic") ==> Sla(n).detail == "99.95%"
    ensures n.sku.value.name.value in {"Premium", "Dedicated"} ==> Sla(n).detail == "99.99%"
  {
    var sku := n.sku.value.name.value;
    ContainsIffOccurs(sku, "Basic");
    ContainsIffOccurs(sku, "Standard");
    if sku == "Premium" {
      forall i: nat ensures !OccursAt(sku, "Basic", i) && !OccursAt(sku, "Standard", i) {
        if i + 5 <= 7 {
          assert sku[i..i + 5][0] == sku[i];
          assert sku[i..i + 5][1] == sku[i + 1];
        }
      }
    } else if sku == "Dedicated" {
      forall i: nat ensures !OccursAt(sku, "Basic", i) && !OccursAt(sku, "Standard", i) {
        if i + 5 <= 9 {
          assert sku[i..i + 5][0] == sku[i];
          assert sku[i..i + 5][1] == sku[i + 1];
        }
        if i + 8 <= 9 {
          assert sku[i..i + 8][0] == sku[i];
          assert sku[i..i + 8][1] == sku[i + 1];
        }
      }
    }
  }

  // ------------------------------------------------------------ the table

  // One record per entry of the source's map literal.

  function DiagnosticSettingsRule(hasDiagnostics: DiagnosticsChecker): AzureRule<EHNamespace> {
    AzureRule(
      "evh-001", "Monitoring and Logging", "Diagnostic Settings",
      "Event Hub Namespace should have diagnostic settings enabled", "Medium",
      (n: EHNamespace, ctx: ScanContext) requires DiagnosticsAnswered(n.id, hasDiagnostics) =>
        DiagnosticSettings(n, hasDiagnostics),
      "https://learn.microsoft.com/en-us/azure/event-hubs/monitor-event-hubs#collection-and-routing")
  }

  function AvailabilityZonesRule(): AzureRule<EHNamespace> {
    AzureRule(
      "evh-002", "High Availability and Resiliency", "Availability Zones",
      "Event Hub Namespace should have availability zones enabled", "High",
      (n: EHNamespace, ctx: ScanContext) requires HasZoneFlag(n) => AvailabilityZones(n),
      "https://learn.microsoft.com/en-us/azure/event-hubs/event-hubs-premium-overview#high-availability-with-availability-zones")
  }

  function SlaRule(): AzureRule<EHNamespace> {
    AzureRule(
      "evh-003", "High Availability and Resiliency", "SLA",
      "Event Hub Namespace should have a SLA", "High",
      (n: EHNamespace, ctx: ScanContext) requires HasSkuName(n) => Sla(n),
      "https://www.azure.cn/en-us/support/sla/event-hubs/")
  }

  function PrivateRule(): AzureRule<EHNamespace> {
    AzureRule(
      "evh-004", "Security", "Private Endpoint",
      "Event Hub Namespace should have private endpoints enabled", "High",
      (n: EHNamespace, ctx: ScanContext) requires n.properties.Some? => PrivateEndpoint(n),
      "https://learn.microsoft.com/en-us/azure/event-hubs/network-security")
  }

  function SkuRule(): AzureRule<EHNamespace> {
    AzureRule(
      "evh-005", "High Availability and Resiliency", "SKU",
      "Event Hub Namespace SKU", "High",
      (n: EHNamespace, ctx: ScanContext) requires HasSkuName(n) => Sku(n),
      "https://learn.microsoft.com/en-us/azure/event-hubs/compare-tiers")
  }

  function CafRule(): AzureRule<EHNamespace> {
    AzureRule(
      "evh-006", "Governance", "CAF Naming",
      "Event Hub Namespace Name should comply with naming conventions", "Low",
      (n: EHNamespace, ctx: ScanContext) requires n.name.Some? => Caf(n),
      "https://learn.microsoft.com/en-us/azure/cloud-adoption-framework/ready/azure-best-practices/resource-abbreviations")
  }

  /** `GetRules`: the table of the Event Hub scanner, keyed as in the source. */
  function GetRules(hasDiagnostics: DiagnosticsChecker): (t: map<string, AzureRule<EHNamespace>>)
    ensures t.Keys == RuleKeys
  {
    map[
      "DiagnosticSettings" := DiagnosticSettingsRule(hasDiagnostics),
      "AvailabilityZones" := AvailabilityZonesRule(),
      "SLA" := SlaRule(),
      "Private" := PrivateRule(),
      "SKU" := SkuRule(),
      "CAF" := CafRule()
    ]
  }

  const RuleKeys: set<string> := {"DiagnosticSettings", "AvailabilityZones", "SLA", "Private", "SKU", "CAF"}

  const RuleIds: set<string> := {"evh-001", "evh-002", "evh-003", "evh-004", "evh-005", "evh-006"}

  lemma RuleKeysCount()
    ensures |RuleKeys| == 6
  {
  }

  /** The table holds six rules, keyed as in the source. */
  lemma GetRulesCount(hasDiagnostics: DiagnosticsChecker)
    ensures GetRules(hasDiagnostics).Keys == RuleKeys
    ensures |GetRules(hasDiagnostics)| == 6
  {
    RuleKeysCount();
    assert GetRules(hasDiagnostics).Keys == RuleKeys;
  }

  /** The source's key of each rule id. */
  function KeyOfId(id: string): string {
    match id
    case "evh-001" => "DiagnosticSettings"
    case "evh-002" => "AvailabilityZones"
    case "evh-003" => "SLA"
    case "evh-004" => "Private"
    case "evh-005" => "SKU"
    case _ => "CAF"
  }

  /** Every rule's id is one of evh-001 .. evh-006 and determines its key. */
  lemma GetRulesKeyOfId(hasDiagnostics: DiagnosticsChecker)
    ensures var t := GetRules(hasDiagnostics);
      forall k :: k in t ==> t[k].id in RuleIds && KeyOfId(t[k].id) == k
  {
    var t := GetRules(hasDiagnostics);
    assert t["DiagnosticSettings"].id == "evh-001";
    assert t["AvailabilityZones"].id == "evh-002";
    assert t["SLA"].id == "evh-003";
    assert t["Private"].id == "evh-004";
    assert t["SKU"].id == "evh-005";
    assert t["CAF"].id == "evh-006";
  }

  /** No two rules of the table share an id. */
  lemma GetRulesIdsDistinct(hasDiagnostics: DiagnosticsChecker)
    ensures var t := GetRules(hasDiagnostics);
      forall k1, k2 :: k1 in t && k2 in t && t[k1].id == t[k2].id ==> k1 == k2
  {
    GetRulesKeyOfId(hasDiagnostics);
  }

  /** The yes/no rules of the table (evh-001, 002, 004, 006) report the
      formatted pass flag: "true" when they pass and "false" when broken. */
  lemma FlagRulesReportPass(hasDiagnostics: DiagnosticsChecker, n: EHNamespace, ctx: ScanContext)
    ensures var t := GetRules(hasDiagnostics);
      && (DiagnosticsAnswered(n.id, hasDiagnostics) ==>
            t["DiagnosticSettings"].eval(n, ctx).detail == FormatBool(!t["DiagnosticSettings"].eval(n, ctx).broken))
      && (HasZoneFlag(n) ==>
            t["AvailabilityZones"].eval(n, ctx).detail == FormatBool(!t["AvailabilityZones"].eval(n, ctx).broken))
      && (n.properties.Some? ==>
            t["Private"].eval(n, ctx).detail == FormatBool(!t["Private"].eval(n, ctx).broken))
      && (n.name.Some? ==>
            t["CAF"].eval(n, ctx).detail == FormatBool(!t["CAF"].eval(n, ctx).broken))
  {
  }
}
