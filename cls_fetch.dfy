/**
 * `Client.FetchSnapshot` (internal/cls/client.go): list the virtual groups, extract their
 * entitlement rows, list every group's license servers (back-filling the group id and name),
 * tally the active leases, then summarise every server's pools. Any failed listing ends the
 * fetch with its error; otherwise all rows go into one snapshot stamped with `collectedAt`,
 * the clock reading Go takes right after the groups are listed.
 */
module Fetch {
  import opened Results
  import opened Sums
  import opened GoTime
  import opened ClsTypes
  import opened ClsClient
  import opened ActiveLeases
  import opened ServerPools

  // ---- Phase 2: the servers of each group ----

  /** `serversByVG`, with `order` recording the order in which its keys were first written. */
  datatype ServerListing = ServerListing(order: seq<int>, byVG: map<int, seq<LicenseServer>>)

  function Backfilled(vg: VirtualGroup, servers: seq<LicenseServer>): (filled: seq<LicenseServer>)
    ensures |filled| == |servers|
    ensures forall i :: 0 <= i < |servers| ==> filled[i] == BackfillServer(vg, servers[i])
  {
    seq(|servers|, i requires 0 <= i < |servers| => BackfillServer(vg, servers[i]))
  }

  /**
   * The server listings of the groups `vgs`, in order: the first failure is the phase's error;
   * otherwise each group's back-filled servers are stored under its id, a later group with the
   * same id overwriting an earlier one.
   */
  function ListServersAll(up: Upstream, vgs: seq<VirtualGroup>): Result<ServerListing, FetchError> {
    if vgs == [] then Success(ServerListing([], map[]))
    else
      match ListServersAll(up, vgs[..|vgs| - 1])
      case Failure(e) => Failure(e)
      case Success(l) =>
        var vg := vgs[|vgs| - 1];
        match up.licenseServers(vg.id)
        case Failure(err) => Failure(ListLicenseServersFailed(vg.id, err))
        case Success(servers) =>
          Success(ServerListing(if vg.id in l.byVG then l.order else l.order + [vg.id],
                                l.byVG[vg.id := Backfilled(vg, servers)]))
  }

  /** `order` lists each key of `byVG` exactly once. */
  ghost predicate ListingOk(l: ServerListing) {
    Distinct(l.order)
    && (forall n :: 0 <= n < |l.order| ==> l.order[n] in l.byVG)
    && (forall g :: g in l.byVG ==> exists n :: 0 <= n < |l.order| && l.order[n] == g)
  }

  /** On success, the listing's order lists each key of the map once. */
  lemma {:induction false} ListServersAllOk(up: Upstream, vgs: seq<VirtualGroup>)
    requires ListServersAll(up, vgs).Success?
    ensures ListingOk(ListServersAll(up, vgs).value)
  {
    if vgs != [] {
      var init, vg := vgs[..|vgs| - 1], vgs[|vgs| - 1];
      ListServersAllOk(up, init);
      var l := ListServersAll(up, init).value;
      var l' := ListServersAll(up, vgs).value;
      if vg.id !in l.byVG {
        assert l'.order == l.order + [vg.id];
        assert l'.order[|l.order|] == vg.id;
        forall g | g in l'.byVG
          ensures exists n :: 0 <= n < |l'.order| && l'.order[n] == g
        {
          if g != vg.id {
            var n :| 0 <= n < |l.order| && l.order[n] == g;
            assert l'.order[n] == g;
          }
        }
      }
    }
  }

  /**
   * On success, the map's keys are exactly the ids of the listed groups, and the servers stored
   * under an id are those its listing returned, back-filled from a group with that id.
   */
  lemma {:induction false} ListServersAllContents(up: Upstream, vgs: seq<VirtualGroup>, g: int)
    requires ListServersAll(up, vgs).Success?
    ensures g in ListServersAll(up, vgs).value.byVG <==> exists i :: 0 <= i < |vgs| && vgs[i].id == g
    ensures g in ListServersAll(up, vgs).value.byVG ==>
              exists i :: 0 <= i < |vgs| && vgs[i].id == g && up.licenseServers(g).Success?
                          && ListServersAll(up, vgs).value.byVG[g] == Backfilled(vgs[i], up.licenseServers(g).value)
  {
    if vgs != [] {
      var init, vg := vgs[..|vgs| - 1], vgs[|vgs| - 1];
      ListServersAllContents(up, init, g);
      var l := ListServersAll(up, init).value;
      assert forall i :: 0 <= i < |init| ==> init[i] == vgs[i];
      if g == vg.id {
        assert vgs[|vgs| - 1] == vg;
      } else if g in l.byVG {
        var i :| 0 <= i < |init| && init[i].id == g && up.licenseServers(g).Success?
                 && l.byVG[g] == Backfilled(init[i], up.licenseServers(g).value);
        assert vgs[i] == init[i];
      }
    }
  }

  /** The server phase fails exactly when some listed group's server listing fails. */
  lemma {:induction false} ListServersAllFailure(up: Upstream, vgs: seq<VirtualGroup>)
    ensures ListServersAll(up, vgs).Failure? <==> exists i :: 0 <= i < |vgs| && up.licenseServers(vgs[i].id).Failure?
  {
    if vgs != [] {
      var init, vg := vgs[..|vgs| - 1], vgs[|vgs| - 1];
      ListServersAllFailure(up, init);
      assert forall i :: 0 <= i < |init| ==> init[i] == vgs[i];
      if ListServersAll(up, init).Failure? {
        var i :| 0 <= i < |init| && up.licenseServers(init[i].id).Failure?;
        assert vgs[i] == init[i];
      } else if up.licenseServers(vg.id).Failure? {
        assert vgs[|vgs| - 1] == vg;
      } else {
        assert forall i :: 0 <= i < |vgs| ==> up.licenseServers(vgs[i].id).Success?;
      }
    }
  }

  lemma {:induction false} ListServersFailureSticks(up: Upstream, vgs: seq<VirtualGroup>, n: int)
    requires 0 <= n <= |vgs|
    requires ListServersAll(up, vgs[..n]).Failure?
    ensures ListServersAll(up, vgs) == ListServersAll(up, vgs[..n])
  {
    if n < |vgs| {
      var init := vgs[..|vgs| - 1];
      assert init[..n] == vgs[..n];
      ListServersFailureSticks(up, init, n);
    } else {
      assert vgs[..n] == vgs;
    }
  }

  /** The loop over the groups that lists their servers (one errgroup task each, here in turn). */
  method ListServers(up: Upstream, vgs: seq<VirtualGroup>) returns (r: Result<ServerListing, FetchError>)
    ensures r == ListServersAll(up, vgs)
  {
    var order: seq<int> := [];
    var byVG: map<int, seq<LicenseServer>> := map[];
    for i := 0 to |vgs|
      invariant ListServersAll(up, vgs[..i]) == Success(ServerListing(order, byVG))
    {
      assert vgs[..i + 1][..i] == vgs[..i];
      var vg := vgs[i];
      var listed := up.licenseServers(vg.id);
      if listed.Failure? {
        ListServersFailureSticks(up, vgs, i + 1);
        return Failure(ListLicenseServersFailed(vg.id, listed.error));
      }
      var servers := BackfillServers(vg, listed.value);
      assert servers == Backfilled(vg, listed.value);
      if vg.id !in byVG {
        order := order + [vg.id];
      }
      byVG := byVG[vg.id := servers];
    }
    assert vgs[..|vgs|] == vgs;
    r := Success(ServerListing(order, byVG));
  }

  // ---- The whole fetch ----

  /** What `FetchSnapshot` returns when the listings answer as `up` does and the clock reads `collectedAt`. */
  function SnapshotOf(up: Upstream, collectedAt: Time): Result<Snapshot, FetchError> {
    match up.virtualGroups
    case Failure(e) => Failure(ListVirtualGroupsFailed(e))
    case Success(vgs) =>
      match ListServersAll(up, vgs)
      case Failure(e) => Failure(e)
      case Success(l) =>
        ListServersAllOk(up, vgs);
        match ActiveLeaseUsageOf(up, l.order, l.byVG)
        case Failure(e) => Failure(e)
        case Success(u) =>
          match AllPools(up, vgs, l.byVG, u.serverTotals)
          case Failure(e) => Failure(e)
          case Success(o) =>
            Success(Snapshot(collectedAt, EntitlementRows(vgs), o.serverFeatureCapacity, o.serverUsage,
                             u.serverRows, u.featureRows, u.total, o.poolUsage))
  }

  /** `FetchSnapshot`: the four phases in turn, stopping at the first failed listing. */
  method FetchSnapshot(up: Upstream, collectedAt: Time) returns (r: Result<Snapshot, FetchError>)
    ensures r == SnapshotOf(up, collectedAt)
  {
    if up.virtualGroups.Failure? {
      return Failure(ListVirtualGroupsFailed(up.virtualGroups.error));
    }
    var vgs := up.virtualGroups.value;
    var entitlements := ExtractEntitlementFeatureMetrics(vgs);
    var listing := ListServers(up, vgs);
    if listing.Failure? {
      return Failure(listing.error);
    }
    ListServersAllOk(up, vgs);
    var active := FetchActiveLeaseUsage(up, listing.value.order, listing.value.byVG);
    if active.Failure? {
      return Failure(active.error);
    }
    var usage := active.value;
    var pools := FetchPools(up, vgs, listing.value.byVG, usage.serverTotals);
    if pools.Failure? {
      return Failure(pools.error);
    }
    var o := pools.value;
    r := Success(Snapshot(collectedAt, entitlements, o.serverFeatureCapacity, o.serverUsage,
                          usage.serverRows, usage.featureRows, usage.total, o.poolUsage));
  }

  /**
   * The fetch succeeds exactly when every listing it makes succeeds: the groups, each group's
   * servers, each service instance's active leases, and each server's pools.
   */
  lemma FetchFailFast(up: Upstream, collectedAt: Time)
    ensures SnapshotOf(up, collectedAt).Success? <==>
      && up.virtualGroups.Success?
      && ListServersAll(up, up.virtualGroups.value).Success?
      && var l := ListServersAll(up, up.virtualGroups.value).value;
         && (forall n :: 0 <= n < |l.order| ==> l.order[n] in l.byVG && !GroupFails(up, l.order[n], l.byVG[l.order[n]]))
         && PoolsListed(up, up.virtualGroups.value, l.byVG)
  {
    if up.virtualGroups.Success? && ListServersAll(up, up.virtualGroups.value).Success? {
      var vgs := up.virtualGroups.value;
      var l := ListServersAll(up, vgs).value;
      ListServersAllOk(up, vgs);
      AllEntriesFailure(up, l.order, l.byVG);
      if ActiveLeaseUsageOf(up, l.order, l.byVG).Success? {
        AllPoolsSuccess(up, vgs, l.byVG, ActiveLeaseUsageOf(up, l.order, l.byVG).value.serverTotals);
      }
    }
  }

  /**
   * What a successful snapshot holds: the clock reading it was given, one entitlement row set per
   * listed group, an active-lease total that equals both the sum of the per-server totals and the
   * sum of the feature rows (each row positive), one usage row per visited server, and usage and
   * pool rows clamped at zero, a server with active leases reporting that total as in use.
   */
  lemma SnapshotProps(up: Upstream, collectedAt: Time)
    requires SnapshotOf(up, collectedAt).Success?
    ensures var snap, vgs := SnapshotOf(up, collectedAt).value, up.virtualGroups.value;
            var l := ListServersAll(up, vgs).value;
            && snap.collectedAt == collectedAt
            && snap.entitlementFeatures == EntitlementRows(vgs)
            && snap.activeLeaseTotal == FeatureRowsTotal(snap.serverFeatureActiveLeases)
            && snap.activeLeaseTotal >= 0.0
            && (forall n :: 0 <= n < |snap.serverFeatureActiveLeases| ==> snap.serverFeatureActiveLeases[n].activeLeases > 0.0)
            && |snap.serverUsage| == ServerCount(vgs, l.byVG)
            && (forall k :: 0 <= k < |snap.serverUsage| ==> UsageClamped(snap.serverUsage[k]))
            && (forall k :: 0 <= k < |snap.poolUsage| ==> PoolRowClamped(snap.poolUsage[k]))
            && ListingOk(l)
            && var u := ActiveLeaseUsageOf(up, l.order, l.byVG).value;
               forall k :: 0 <= k < |snap.serverUsage| && snap.serverUsage[k].serverId in u.serverTotals ==>
                 snap.serverUsage[k].inUse == u.serverTotals[snap.serverUsage[k].serverId]
  {
    var vgs := up.virtualGroups.value;
    var l := ListServersAll(up, vgs).value;
    ListServersAllOk(up, vgs);
    ActiveLeaseTotalsAgree(up, l.order, l.byVG);
    var u := ActiveLeaseUsageOf(up, l.order, l.byVG).value;
    AllPoolsOk(up, vgs, l.byVG, u.serverTotals);
  }
}
