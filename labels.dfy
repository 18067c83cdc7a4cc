/**
 * What the push side (internal/otel/metrics.go) and the pull side (internal/exporter/collector.go)
 * have in common: the metric names, `safeLabel` (both files define the same function), and the
 * label lists each kind of row is exported with. A label list starts with the row's virtual
 * group id in decimal; every other label is the row's field passed through `safeLabel`.
 */
module MetricLabels {
  import opened Results
  import opened Text
  import opened Decimal
  import opened ClsTypes

  const MetricUp := "nvidia_cls_up"
  const MetricScrapeDuration := "nvidia_cls_scrape_duration_seconds"
  const MetricScrapeTimestamp := "nvidia_cls_scrape_timestamp_seconds"
  const MetricEntitlementTotal := "nvidia_cls_entitlement_total_quantity"
  const MetricServerInfo := "nvidia_cls_license_server_info"
  const MetricServerFeatureTotal := "nvidia_cls_license_server_feature_total_quantity"
  const MetricServerFeatureActive := "nvidia_cls_license_server_feature_active_leases"

  /** The three metrics about the scrape itself, which carry no row labels. */
  predicate IsScrapeMetric(name: string) {
    name == MetricUp || name == MetricScrapeDuration || name == MetricScrapeTimestamp
  }

  /** `safeLabel`: the trimmed value, or "unknown" when nothing is left. */
  function SafeLabel(v: string): string {
    var t := TrimSpace(v);
    if t == "" then "unknown" else t
  }

  /** A label is never empty and never starts or ends with white space; a blank value becomes "unknown". */
  lemma SafeLabelSpec(v: string)
    ensures var l := SafeLabel(v);
            && l != ""
            && !IsSpace(l[0]) && !IsSpace(l[|l| - 1])
            && (IsBlank(v) ==> l == "unknown")
            && (!IsBlank(v) ==> l == TrimSpace(v))
  {
    TrimSpaceSpec(v);
  }

  /** A label passes through `safeLabel` unchanged. */
  lemma SafeLabelIdempotent(v: string)
    ensures SafeLabel(SafeLabel(v)) == SafeLabel(v)
  {
    SafeLabelSpec(v);
    TrimSpaceOfTrimmed(SafeLabel(v));
  }

  /** A label list: the group id in decimal, then each field through `safeLabel`. */
  function Render(virtualGroupId: int, fields: seq<string>): seq<string> {
    [Itoa(virtualGroupId)] + seq(|fields|, k requires 0 <= k < |fields| => SafeLabel(fields[k]))
  }

  /**
   * A rendered list has one label per field after the id; the first label reads back as the
   * group id, and every label is non-empty and a fixed point of `safeLabel` or the decimal id.
   */
  lemma RenderSpec(virtualGroupId: int, fields: seq<string>)
    ensures var labels := Render(virtualGroupId, fields);
            && |labels| == |fields| + 1
            && ParseInt(labels[0]) == Some(virtualGroupId)
            && (forall k :: 0 <= k < |labels| ==> labels[k] != "")
            && (forall k :: 1 <= k < |labels| ==> labels[k] == SafeLabel(fields[k - 1]))
            && (forall k :: 1 <= k < |labels| ==> SafeLabel(labels[k]) == labels[k])
  {
    ParseItoa(virtualGroupId);
    var labels := Render(virtualGroupId, fields);
    forall k | 1 <= k < |labels|
      ensures labels[k] != "" && SafeLabel(labels[k]) == labels[k]
    {
      SafeLabelSpec(fields[k - 1]);
      SafeLabelIdempotent(fields[k - 1]);
    }
  }

  const EntitlementKeys := ["virtual_group_id", "virtual_group_name", "feature_name", "feature_version",
                            "product_name", "license_type"]
  const ServerFeatureKeys := ["virtual_group_id", "virtual_group_name", "server_id", "server_name",
                              "feature_name", "product_name", "license_type"]
  const ServerInfoKeys := ["virtual_group_id", "virtual_group_name", "server_id", "server_name", "status",
                           "deployed_on", "leasing_mode"]

  /** The fields each kind of row exports after its group id, in label order. */
  function EntitlementFields(item: EntitlementFeatureRow): seq<string> {
    [item.virtualGroupName, item.featureName, item.featureVersion, item.productName, item.licenseType]
  }

  function CapacityFields(item: ServerFeatureCapacityRow): seq<string> {
    [item.virtualGroupName, item.serverId, item.serverName, item.featureName, item.productName, item.licenseType]
  }

  function ActiveFields(item: ServerFeatureActiveLeaseRow): seq<string> {
    [item.virtualGroupName, item.serverId, item.serverName, item.featureName, item.productName, item.licenseType]
  }

  function InfoFields(item: ServerUsageRow): seq<string> {
    [item.virtualGroupName, item.serverId, item.serverName, item.serverStatus, item.deployedOn, item.leasingMode]
  }

  function EntitlementLabels(item: EntitlementFeatureRow): seq<string> {
    Render(item.virtualGroupId, EntitlementFields(item))
  }

  function CapacityLabels(item: ServerFeatureCapacityRow): seq<string> {
    Render(item.virtualGroupId, CapacityFields(item))
  }

  function ActiveLabels(item: ServerFeatureActiveLeaseRow): seq<string> {
    Render(item.virtualGroupId, ActiveFields(item))
  }

  function InfoLabels(item: ServerUsageRow): seq<string> {
    Render(item.virtualGroupId, InfoFields(item))
  }

  /** Each kind of row has exactly one label per key of its kind. */
  lemma LabelsMatchKeys(e: EntitlementFeatureRow, c: ServerFeatureCapacityRow, a: ServerFeatureActiveLeaseRow,
                        u: ServerUsageRow)
    ensures |EntitlementLabels(e)| == |EntitlementKeys|
    ensures |CapacityLabels(c)| == |ServerFeatureKeys|
    ensures |ActiveLabels(a)| == |ServerFeatureKeys|
    ensures |InfoLabels(u)| == |ServerInfoKeys|
  {
  }
}
