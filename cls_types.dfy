/**
 * The records of the licensing API client (internal/cls): the payloads the four upstream
 * listings return, the rows of a `Snapshot`, and the listings themselves as inputs.
 * Quantities are Go `float64`; here they are exact reals.
 */
module ClsTypes {
  import opened Results
  import opened GoTime

  // ---- Upstream payloads, as decoded from JSON (fields the JSON omits are Go zero values) ----

  datatype EntitlementFeature = EntitlementFeature(
    featureName: string, featureVersion: string, productName: string, licenseType: string,
    totalQuantity: real, inUseQuantity: real, unassignedQuantity: real)

  datatype EntitlementProductKey = EntitlementProductKey(entitlementFeatures: seq<EntitlementFeature>)

  datatype EntitlementSummary = EntitlementSummary(entitlementProductKeys: seq<EntitlementProductKey>)

  datatype VirtualGroup = VirtualGroup(id: int, name: string, entitlements: seq<EntitlementSummary>)

  datatype LicenseServerFeature = LicenseServerFeature(
    id: string, featureName: string, productName: string, licenseType: string, totalQuantity: real)

  datatype LicenseServer = LicenseServer(
    id: string, name: string, status: string, virtualGroupId: int, virtualGroupName: string,
    deployedOn: string, leasingMode: string, serviceInstanceId: string,
    licenseServerFeatures: seq<LicenseServerFeature>)

  datatype LicensePoolFeature = LicensePoolFeature(
    licenseServerFeatureId: string, totalAllotment: real, inUse: real)

  datatype LicensePool = LicensePool(id: string, name: string, licensePoolFeatures: seq<LicensePoolFeature>)

  datatype ActiveLease = ActiveLease(
    leaseId: string, featureName: string, leaseCount: real, licenseAllotmentFeatureId: string)

  /** An active-lease client; `licenseServerId`/`licenseServerName` come from its additional properties. */
  datatype ActiveLeaseClient = ActiveLeaseClient(
    leases: seq<ActiveLease>, licenseServerId: string, licenseServerName: string)

  /** What a Go map lookup of a missing server id yields: the zero `licenseServer`. */
  const ZeroServer := LicenseServer("", "", "", 0, "", "", "", "", [])

  /** What a Go map lookup of a missing feature id yields: the zero `licenseServerFeature`. */
  const ZeroServerFeature := LicenseServerFeature("", "", "", "", 0.0)

  // ---- Snapshot rows ----

  datatype EntitlementFeatureRow = EntitlementFeatureRow(
    virtualGroupId: int, virtualGroupName: string, featureName: string, featureVersion: string,
    productName: string, licenseType: string, totalQuantity: real, inUseQuantity: real, unassigned: real)

  datatype ServerFeatureCapacityRow = ServerFeatureCapacityRow(
    virtualGroupId: int, virtualGroupName: string, serverId: string, serverName: string,
    serverStatus: string, deployedOn: string, leasingMode: string,
    featureName: string, productName: string, licenseType: string, totalQuantity: real)

  /** `allocation` is the Go field `Allocated` (`allocated` is a Dafny keyword). */
  datatype ServerUsageRow = ServerUsageRow(
    virtualGroupId: int, virtualGroupName: string, serverId: string, serverName: string,
    serverStatus: string, deployedOn: string, leasingMode: string,
    allocation: real, inUse: real, available: real)

  datatype ServerActiveLeaseRow = ServerActiveLeaseRow(
    virtualGroupId: int, virtualGroupName: string, serverId: string, serverName: string, activeLeases: real)

  datatype ServerFeatureActiveLeaseRow = ServerFeatureActiveLeaseRow(
    virtualGroupId: int, virtualGroupName: string, serverId: string, serverName: string,
    featureName: string, productName: string, licenseType: string, activeLeases: real)

  datatype PoolUsageRow = PoolUsageRow(
    virtualGroupId: int, virtualGroupName: string, serverId: string, serverName: string,
    poolId: string, poolName: string, featureName: string, productName: string, licenseType: string,
    allocation: real, inUse: real, available: real)

  datatype Snapshot = Snapshot(
    collectedAt: Time,
    entitlementFeatures: seq<EntitlementFeatureRow>,
    serverFeatureCapacity: seq<ServerFeatureCapacityRow>,
    serverUsage: seq<ServerUsageRow>,
    serverActiveLeases: seq<ServerActiveLeaseRow>,
    serverFeatureActiveLeases: seq<ServerFeatureActiveLeaseRow>,
    activeLeaseTotal: real,
    poolUsage: seq<PoolUsageRow>)

  // ---- The upstream listings and how a failed one is reported ----

  /** The error an HTTP listing returned (transport, non-2xx status or decoding); its text only. */
  type ApiError = string

  /** A failed fetch, wrapped with the group, server or service instance it concerned. */
  datatype FetchError =
    | ListVirtualGroupsFailed(cause: ApiError)
    | ListLicenseServersFailed(virtualGroupId: int, cause: ApiError)
    | ListActiveLeasesFailed(virtualGroupId: int, serviceInstanceId: string, cause: ApiError)
    | ListLicensePoolsFailed(serverId: string, virtualGroupId: int, cause: ApiError)

  /**
   * The four listings the client calls: all virtual groups; the license servers of a group;
   * the active-lease clients of a (group, service instance); the pools of a (group, server).
   */
  datatype Upstream = Upstream(
    virtualGroups: Result<seq<VirtualGroup>, ApiError>,
    licenseServers: int -> Result<seq<LicenseServer>, ApiError>,
    activeLeases: (int, string) -> Result<seq<ActiveLeaseClient>, ApiError>,
    licensePools: (int, string) -> Result<seq<LicensePool>, ApiError>)
}
