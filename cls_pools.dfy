/**
 * Phase 4 of `FetchSnapshot` (internal/cls/client.go): for every server of every listed group,
 * list the server's license pools and derive its capacity rows, its pool rows (available clamped
 * at zero) and its usage row, whose in-use figure is replaced by the active-lease total when the
 * server has one. Go runs one errgroup task per server and appends under a mutex; here the
 * servers are taken in order, group by group, and the first failing listing ends the phase.
 */
module ServerPools {
  import opened Results
  import opened ClsTypes
  import opened ClsClient
  import opened ActiveLeases

  // ---- One server ----

  function CapacityRow(s: LicenseServer, f: LicenseServerFeature): ServerFeatureCapacityRow {
    ServerFeatureCapacityRow(s.virtualGroupId, s.virtualGroupName, s.id, s.name, s.status, s.deployedOn,
                             s.leasingMode, f.featureName, f.productName, f.licenseType, f.totalQuantity)
  }

  /** One capacity row per feature of the server, in the server's order. */
  function CapacityRows(s: LicenseServer): (rows: seq<ServerFeatureCapacityRow>)
    ensures |rows| == |s.licenseServerFeatures|
    ensures forall n :: 0 <= n < |rows| ==> rows[n] == CapacityRow(s, s.licenseServerFeatures[n])
  {
    seq(|s.licenseServerFeatures|, n requires 0 <= n < |s.licenseServerFeatures| =>
      CapacityRow(s, s.licenseServerFeatures[n]))
  }

  /** The server's features by id; a later feature with the same id wins. */
  function FeaturesById(s: LicenseServer): map<string, LicenseServerFeature> {
    IndexBy(map[], s.licenseServerFeatures, FeatureKey)
  }

  /** What is left of an allotment: allotted minus in use, never below zero. */
  function Available(allotted: real, inUse: real): (a: real)
    ensures a >= 0.0
    ensures a >= allotted - inUse
    ensures allotted >= inUse ==> a == allotted - inUse
    ensures allotted < inUse ==> a == 0.0
  {
    if allotted - inUse < 0.0 then 0.0 else allotted - inUse
  }

  /** The row of one pool feature, named after the server feature it allots (the zero feature if unknown). */
  function PoolRow(s: LicenseServer, byId: map<string, LicenseServerFeature>, p: LicensePool, pf: LicensePoolFeature)
    : PoolUsageRow
  {
    var f := if pf.licenseServerFeatureId in byId then byId[pf.licenseServerFeatureId] else ZeroServerFeature;
    PoolUsageRow(s.virtualGroupId, s.virtualGroupName, s.id, s.name, p.id, p.name,
                 f.featureName, f.productName, f.licenseType,
                 pf.totalAllotment, pf.inUse, Available(pf.totalAllotment, pf.inUse))
  }

  function PoolRowsOf(s: LicenseServer, byId: map<string, LicenseServerFeature>, p: LicensePool)
    : (rows: seq<PoolUsageRow>)
    ensures |rows| == |p.licensePoolFeatures|
    ensures forall n :: 0 <= n < |rows| ==> rows[n] == PoolRow(s, byId, p, p.licensePoolFeatures[n])
  {
    seq(|p.licensePoolFeatures|, n requires 0 <= n < |p.licensePoolFeatures| =>
      PoolRow(s, byId, p, p.licensePoolFeatures[n]))
  }

  /** The pool rows of a server: each pool's features in turn. */
  function PoolRows(s: LicenseServer, byId: map<string, LicenseServerFeature>, pools: seq<LicensePool>)
    : seq<PoolUsageRow>
  {
    if pools == [] then []
    else PoolRows(s, byId, pools[..|pools| - 1]) + PoolRowsOf(s, byId, pools[|pools| - 1])
  }

  /** The sums of allotted and of in-use quantities over a run of pool rows. */
  function AllocatedSum(rows: seq<PoolUsageRow>): real {
    if rows == [] then 0.0 else AllocatedSum(rows[..|rows| - 1]) + rows[|rows| - 1].allocation
  }

  function InUseSum(rows: seq<PoolUsageRow>): real {
    if rows == [] then 0.0 else InUseSum(rows[..|rows| - 1]) + rows[|rows| - 1].inUse
  }

  /**
   * The usage row of a server with pool rows `rows`: allotted and in-use sums, available clamped at
   * zero; when the active-lease tally has the server, its total replaces the in-use sum.
   */
  function UsageRow(s: LicenseServer, rows: seq<PoolUsageRow>, active: map<string, real>): ServerUsageRow {
    var allotted := AllocatedSum(rows);
    var inUse := if s.id in active then active[s.id] else InUseSum(rows);
    ServerUsageRow(s.virtualGroupId, s.virtualGroupName, s.id, s.name, s.status, s.deployedOn, s.leasingMode,
                   allotted, inUse, MaxFloat64(0.0, allotted - inUse))
  }

  /** What one server's task appends to the snapshot. */
  datatype ServerSummary = ServerSummary(
    poolRows: seq<PoolUsageRow>, usage: ServerUsageRow, capacity: seq<ServerFeatureCapacityRow>)

  function SummaryOf(s: LicenseServer, pools: seq<LicensePool>, active: map<string, real>): ServerSummary {
    var rows := PoolRows(s, FeaturesById(s), pools);
    ServerSummary(rows, UsageRow(s, rows, active), CapacityRows(s))
  }

  lemma AllocatedSumAppend(a: seq<PoolUsageRow>, b: seq<PoolUsageRow>)
    ensures AllocatedSum(a + b) == AllocatedSum(a) + AllocatedSum(b)
    ensures InUseSum(a + b) == InUseSum(a) + InUseSum(b)
    decreases |b|
  {
    if b == [] {
      assert a + b == a;
    } else {
      assert (a + b)[..|a + b| - 1] == a + b[..|b| - 1];
      AllocatedSumAppend(a, b[..|b| - 1]);
    }
  }

  lemma SumsSnoc(rows: seq<PoolUsageRow>, row: PoolUsageRow)
    ensures AllocatedSum(rows + [row]) == AllocatedSum(rows) + row.allocation
    ensures InUseSum(rows + [row]) == InUseSum(rows) + row.inUse
  {
    assert (rows + [row])[..|rows|] == rows;
  }

  lemma PoolRowsOfStep(s: LicenseServer, byId: map<string, LicenseServerFeature>, p: LicensePool, n: int)
    requires 0 <= n < |p.licensePoolFeatures|
    ensures PoolRowsOf(s, byId, p)[..n + 1] == PoolRowsOf(s, byId, p)[..n] + [PoolRow(s, byId, p, p.licensePoolFeatures[n])]
  {
  }

  /** The innermost loop: one row per feature of pool `p`, adding its allotment and use to the sums. */
  method AppendPoolRows(s: LicenseServer, byId: map<string, LicenseServerFeature>, p: LicensePool,
                        rows: seq<PoolUsageRow>, allotted: real, inUse: real)
    returns (rows': seq<PoolUsageRow>, allotted': real, inUse': real)
    requires allotted == AllocatedSum(rows) && inUse == InUseSum(rows)
    ensures rows' == rows + PoolRowsOf(s, byId, p)
    ensures allotted' == AllocatedSum(rows') && inUse' == InUseSum(rows')
  {
    rows', allotted', inUse' := rows, allotted, inUse;
    var fs := p.licensePoolFeatures;
    for n := 0 to |fs|
      invariant rows' == rows + PoolRowsOf(s, byId, p)[..n]
      invariant allotted' == AllocatedSum(rows') && inUse' == InUseSum(rows')
    {
      var pf := fs[n];
      var f := if pf.licenseServerFeatureId in byId then byId[pf.licenseServerFeatureId] else ZeroServerFeature;
      var available := pf.totalAllotment - pf.inUse;
      if available < 0.0 {
        available := 0.0;
      }
      allotted' := allotted' + pf.totalAllotment;
      inUse' := inUse' + pf.inUse;
      var row := PoolUsageRow(s.virtualGroupId, s.virtualGroupName, s.id, s.name, p.id, p.name,
                              f.featureName, f.productName, f.licenseType, pf.totalAllotment, pf.inUse, available);
      PoolRowsOfStep(s, byId, p, n);
      SumsSnoc(rows', row);
      rows' := rows' + [row];
    }
    assert PoolRowsOf(s, byId, p)[..|fs|] == PoolRowsOf(s, byId, p);
  }

  /** One server's task: capacity rows and the feature index, then the pool rows, then the usage row. */
  method SummarizeServer(s: LicenseServer, pools: seq<LicensePool>, active: map<string, real>)
    returns (summary: ServerSummary)
    ensures summary == SummaryOf(s, pools, active)
  {
    var fs := s.licenseServerFeatures;
    var byId: map<string, LicenseServerFeature> := map[];
    var capacity: seq<ServerFeatureCapacityRow> := [];
    for n := 0 to |fs|
      invariant byId == IndexBy(map[], fs[..n], FeatureKey)
      invariant capacity == CapacityRows(s)[..n]
    {
      assert fs[..n + 1][..n] == fs[..n];
      byId := byId[fs[n].id := fs[n]];
      capacity := capacity + [CapacityRow(s, fs[n])];
    }
    assert fs[..|fs|] == fs;
    assert CapacityRows(s)[..|fs|] == CapacityRows(s);

    var rows: seq<PoolUsageRow> := [];
    var allotted := 0.0;
    var inUse := 0.0;
    for i := 0 to |pools|
      invariant rows == PoolRows(s, byId, pools[..i])
      invariant allotted == AllocatedSum(rows) && inUse == InUseSum(rows)
    {
      assert pools[..i + 1][..i] == pools[..i];
      rows, allotted, inUse := AppendPoolRows(s, byId, pools[i], rows, allotted, inUse);
    }
    assert pools[..|pools|] == pools;

    var usage := ServerUsageRow(s.virtualGroupId, s.virtualGroupName, s.id, s.name, s.status, s.deployedOn,
                                s.leasingMode, allotted, inUse, MaxFloat64(0.0, allotted - inUse));
    if s.id in active {
      var activeLeaseCount := active[s.id];
      usage := usage.(inUse := activeLeaseCount, available := MaxFloat64(0.0, allotted - activeLeaseCount));
    }
    summary := ServerSummary(rows, usage, capacity);
  }

  // ---- What one server's rows promise ----

  /** The sum of the allotments of all features of all pools. */
  function PoolsAllotment(pools: seq<LicensePool>): real {
    if pools == [] then 0.0 else PoolsAllotment(pools[..|pools| - 1]) + FeaturesAllotment(pools[|pools| - 1].licensePoolFeatures)
  }

  function FeaturesAllotment(fs: seq<LicensePoolFeature>): real {
    if fs == [] then 0.0 else FeaturesAllotment(fs[..|fs| - 1]) + fs[|fs| - 1].totalAllotment
  }

  lemma {:induction false} PoolRowsOfAllotment(s: LicenseServer, byId: map<string, LicenseServerFeature>, p: LicensePool,
                                               n: nat)
    requires n <= |p.licensePoolFeatures|
    ensures AllocatedSum(PoolRowsOf(s, byId, p)[..n]) == FeaturesAllotment(p.licensePoolFeatures[..n])
  {
    if n > 0 {
      PoolRowsOfAllotment(s, byId, p, n - 1);
      assert PoolRowsOf(s, byId, p)[..n][..n - 1] == PoolRowsOf(s, byId, p)[..n - 1];
      assert p.licensePoolFeatures[..n][..n - 1] == p.licensePoolFeatures[..n - 1];
    }
  }

  /** A server's allotted figure is the sum of the allotments of its pools' features. */
  lemma {:induction false} PoolRowsAllotment(s: LicenseServer, byId: map<string, LicenseServerFeature>,
                                             pools: seq<LicensePool>)
    ensures AllocatedSum(PoolRows(s, byId, pools)) == PoolsAllotment(pools)
  {
    if pools != [] {
      var p := pools[|pools| - 1];
      PoolRowsAllotment(s, byId, pools[..|pools| - 1]);
      AllocatedSumAppend(PoolRows(s, byId, pools[..|pools| - 1]), PoolRowsOf(s, byId, p));
      PoolRowsOfAllotment(s, byId, p, |p.licensePoolFeatures|);
      assert PoolRowsOf(s, byId, p)[..|p.licensePoolFeatures|] == PoolRowsOf(s, byId, p);
      assert p.licensePoolFeatures[..|p.licensePoolFeatures|] == p.licensePoolFeatures;
    }
  }

  /** Each pool row: its available figure is never negative and covers what is allotted but unused. */
  ghost predicate PoolRowClamped(r: PoolUsageRow) {
    r.available >= 0.0 && r.available + r.inUse >= r.allocation
    && (r.allocation >= r.inUse ==> r.available + r.inUse == r.allocation)
  }

  lemma {:induction false} PoolRowsClamped(s: LicenseServer, byId: map<string, LicenseServerFeature>, pools: seq<LicensePool>)
    ensures forall n :: 0 <= n < |PoolRows(s, byId, pools)| ==> PoolRowClamped(PoolRows(s, byId, pools)[n])
  {
    if pools != [] {
      PoolRowsClamped(s, byId, pools[..|pools| - 1]);
    }
  }

  /** The usage row's available figure is what is allotted minus what is in use, never below zero. */
  ghost predicate UsageClamped(u: ServerUsageRow) {
    u.available >= 0.0 && u.available >= u.allocation - u.inUse
    && (u.allocation >= u.inUse ==> u.available == u.allocation - u.inUse)
    && (u.allocation < u.inUse ==> u.available == 0.0)
  }

  /**
   * A server's summary: its usage row reports the sum of its pools' allotments; its in-use figure is
   * the active-lease total when the tally has the server and the pools' in-use sum otherwise; the
   * available figure is clamped consistently with that in-use figure; every pool row is clamped;
   * and there is one capacity row per server feature.
   */
  lemma SummaryProps(s: LicenseServer, pools: seq<LicensePool>, active: map<string, real>)
    ensures var sum := SummaryOf(s, pools, active);
            && sum.usage.allocation == PoolsAllotment(pools)
            && (s.id in active ==> sum.usage.inUse == active[s.id])
            && (s.id !in active ==> sum.usage.inUse == InUseSum(sum.poolRows))
            && UsageClamped(sum.usage)
            && sum.usage.serverId == s.id && sum.usage.virtualGroupId == s.virtualGroupId
            && (forall n :: 0 <= n < |sum.poolRows| ==> PoolRowClamped(sum.poolRows[n]))
            && |sum.capacity| == |s.licenseServerFeatures|
  {
    PoolRowsAllotment(s, FeaturesById(s), pools);
    PoolRowsClamped(s, FeaturesById(s), pools);
  }

  // ---- All servers ----

  /** What the pool phase appends to the snapshot. */
  datatype PoolOutput = PoolOutput(
    poolUsage: seq<PoolUsageRow>, serverUsage: seq<ServerUsageRow>, serverFeatureCapacity: seq<ServerFeatureCapacityRow>)

  /** The servers phase 2 recorded for group id `gid` (none when it recorded nothing). */
  function ServersOf(byVG: map<int, seq<LicenseServer>>, gid: int): seq<LicenseServer> {
    if gid in byVG then byVG[gid] else []
  }

  /** Adding one server's task to the output; a failed pool listing is the phase's error. */
  function AddServer(up: Upstream, gid: int, s: LicenseServer, active: map<string, real>,
                     acc: Result<PoolOutput, FetchError>): Result<PoolOutput, FetchError>
  {
    match acc
    case Failure(e) => Failure(e)
    case Success(o) =>
      match up.licensePools(gid, s.id)
      case Failure(err) => Failure(ListLicensePoolsFailed(s.id, gid, err))
      case Success(pools) =>
        var sum := SummaryOf(s, pools, active);
        Success(PoolOutput(o.poolUsage + sum.poolRows, o.serverUsage + [sum.usage],
                           o.serverFeatureCapacity + sum.capacity))
  }

  function GroupPools(up: Upstream, gid: int, servers: seq<LicenseServer>, active: map<string, real>,
                      acc: Result<PoolOutput, FetchError>): Result<PoolOutput, FetchError>
  {
    if servers == [] then acc
    else AddServer(up, gid, servers[|servers| - 1], active, GroupPools(up, gid, servers[..|servers| - 1], active, acc))
  }

  /** The pool phase over the listed groups `vgs` (a repeated group is visited again). */
  function AllPools(up: Upstream, vgs: seq<VirtualGroup>, byVG: map<int, seq<LicenseServer>>, active: map<string, real>)
    : Result<PoolOutput, FetchError>
  {
    if vgs == [] then Success(PoolOutput([], [], []))
    else
      var vg := vgs[|vgs| - 1];
      GroupPools(up, vg.id, ServersOf(byVG, vg.id), active, AllPools(up, vgs[..|vgs| - 1], byVG, active))
  }

  /** The loop over a group's servers. */
  method PoolsOfGroup(up: Upstream, gid: int, servers: seq<LicenseServer>, active: map<string, real>,
                      acc: PoolOutput) returns (r: Result<PoolOutput, FetchError>)
    ensures r == GroupPools(up, gid, servers, active, Success(acc))
  {
    var out := acc;
    for j := 0 to |servers|
      invariant GroupPools(up, gid, servers[..j], active, Success(acc)) == Success(out)
    {
      assert servers[..j + 1][..j] == servers[..j];
      var server := servers[j];
      var listed := up.licensePools(gid, server.id);
      if listed.Failure? {
        GroupPoolsFailureSticks(up, gid, servers, active, Success(acc), j + 1);
        return Failure(ListLicensePoolsFailed(server.id, gid, listed.error));
      }
      var summary := SummarizeServer(server, listed.value, active);
      out := PoolOutput(out.poolUsage + summary.poolRows, out.serverUsage + [summary.usage],
                        out.serverFeatureCapacity + summary.capacity);
    }
    assert servers[..|servers|] == servers;
    r := Success(out);
  }

  lemma {:induction false} GroupPoolsFailureSticks(up: Upstream, gid: int, servers: seq<LicenseServer>,
                                                   active: map<string, real>, acc: Result<PoolOutput, FetchError>, n: int)
    requires 0 <= n <= |servers|
    requires GroupPools(up, gid, servers[..n], active, acc).Failure?
    ensures GroupPools(up, gid, servers, active, acc) == GroupPools(up, gid, servers[..n], active, acc)
  {
    if n < |servers| {
      var init := servers[..|servers| - 1];
      assert init[..n] == servers[..n];
      GroupPoolsFailureSticks(up, gid, init, active, acc, n);
    } else {
      assert servers[..n] == servers;
    }
  }

  lemma {:induction false} GroupPoolsOfFailure(up: Upstream, gid: int, servers: seq<LicenseServer>,
                                               active: map<string, real>, e: FetchError)
    ensures GroupPools(up, gid, servers, active, Failure(e)) == Failure(e)
  {
    if servers != [] {
      GroupPoolsOfFailure(up, gid, servers[..|servers| - 1], active, e);
    }
  }

  lemma {:induction false} AllPoolsFailureSticks(up: Upstream, vgs: seq<VirtualGroup>, byVG: map<int, seq<LicenseServer>>,
                                                 active: map<string, real>, n: int)
    requires 0 <= n <= |vgs|
    requires AllPools(up, vgs[..n], byVG, active).Failure?
    ensures AllPools(up, vgs, byVG, active) == AllPools(up, vgs[..n], byVG, active)
  {
    if n < |vgs| {
      var init := vgs[..|vgs| - 1];
      assert init[..n] == vgs[..n];
      AllPoolsFailureSticks(up, init, byVG, active, n);
      GroupPoolsOfFailure(up, vgs[|vgs| - 1].id, ServersOf(byVG, vgs[|vgs| - 1].id), active,
                          AllPools(up, init, byVG, active).error);
    } else {
      assert vgs[..n] == vgs;
    }
  }

  /** The pool phase: every server of every listed group, group by group. */
  method FetchPools(up: Upstream, vgs: seq<VirtualGroup>, byVG: map<int, seq<LicenseServer>>, active: map<string, real>)
    returns (r: Result<PoolOutput, FetchError>)
    ensures r == AllPools(up, vgs, byVG, active)
  {
    var out := PoolOutput([], [], []);
    for i := 0 to |vgs|
      invariant AllPools(up, vgs[..i], byVG, active) == Success(out)
    {
      assert vgs[..i + 1][..i] == vgs[..i];
      var vg := vgs[i];
      var servers := if vg.id in byVG then byVG[vg.id] else [];
      var group := PoolsOfGroup(up, vg.id, servers, active, out);
      if group.Failure? {
        AllPoolsFailureSticks(up, vgs, byVG, active, i + 1);
        return group;
      }
      out := group.value;
    }
    assert vgs[..|vgs|] == vgs;
    r := Success(out);
  }

  // ---- What the pool phase promises ----

  /**
   * Every usage row is clamped and reports the active-lease total of a server the tally has, and
   * every pool row is clamped.
   */
  ghost predicate OutputOk(o: PoolOutput, active: map<string, real>) {
    && (forall k :: 0 <= k < |o.serverUsage| ==> UsageClamped(o.serverUsage[k]))
    && (forall k :: 0 <= k < |o.serverUsage| && o.serverUsage[k].serverId in active ==>
          o.serverUsage[k].inUse == active[o.serverUsage[k].serverId])
    && (forall k :: 0 <= k < |o.poolUsage| ==> PoolRowClamped(o.poolUsage[k]))
  }

  /** How many servers the pool phase visits: those recorded for each listed group, in turn. */
  function ServerCount(vgs: seq<VirtualGroup>, byVG: map<int, seq<LicenseServer>>): nat {
    if vgs == [] then 0 else ServerCount(vgs[..|vgs| - 1], byVG) + |ServersOf(byVG, vgs[|vgs| - 1].id)|
  }

  lemma AddServerOk(up: Upstream, gid: int, s: LicenseServer, active: map<string, real>, o: PoolOutput)
    requires OutputOk(o, active)
    requires AddServer(up, gid, s, active, Success(o)).Success?
    ensures OutputOk(AddServer(up, gid, s, active, Success(o)).value, active)
    ensures |AddServer(up, gid, s, active, Success(o)).value.serverUsage| == |o.serverUsage| + 1
  {
    var pools := up.licensePools(gid, s.id).value;
    SummaryProps(s, pools, active);
    var sum := SummaryOf(s, pools, active);
    var o' := AddServer(up, gid, s, active, Success(o)).value;
    assert o'.serverUsage == o.serverUsage + [sum.usage];
    assert o'.poolUsage == o.poolUsage + sum.poolRows;
    assert forall k :: |o.poolUsage| <= k < |o'.poolUsage| ==> o'.poolUsage[k] == sum.poolRows[k - |o.poolUsage|];
  }

  lemma {:induction false} GroupPoolsOk(up: Upstream, gid: int, servers: seq<LicenseServer>, active: map<string, real>,
                                        o: PoolOutput)
    requires OutputOk(o, active)
    requires GroupPools(up, gid, servers, active, Success(o)).Success?
    ensures OutputOk(GroupPools(up, gid, servers, active, Success(o)).value, active)
    ensures |GroupPools(up, gid, servers, active, Success(o)).value.serverUsage| == |o.serverUsage| + |servers|
  {
    if servers != [] {
      var init := servers[..|servers| - 1];
      var prev := GroupPools(up, gid, init, active, Success(o));
      if prev.Failure? {
        GroupPoolsOfFailure(up, gid, [servers[|servers| - 1]], active, prev.error);
        assert false;
      }
      GroupPoolsOk(up, gid, init, active, o);
      AddServerOk(up, gid, servers[|servers| - 1], active, prev.value);
    }
  }

  /**
   * On success, the pool phase yields one usage row per visited server; every usage row and every
   * pool row is clamped at zero, and a server the active-lease tally has reports that total in use.
   */
  lemma {:induction false} AllPoolsOk(up: Upstream, vgs: seq<VirtualGroup>, byVG: map<int, seq<LicenseServer>>,
                                      active: map<string, real>)
    requires AllPools(up, vgs, byVG, active).Success?
    ensures OutputOk(AllPools(up, vgs, byVG, active).value, active)
    ensures |AllPools(up, vgs, byVG, active).value.serverUsage| == ServerCount(vgs, byVG)
  {
    if vgs != [] {
      var init, vg := vgs[..|vgs| - 1], vgs[|vgs| - 1];
      var prev := AllPools(up, init, byVG, active);
      if prev.Failure? {
        GroupPoolsOfFailure(up, vg.id, ServersOf(byVG, vg.id), active, prev.error);
        assert false;
      }
      AllPoolsOk(up, init, byVG, active);
      GroupPoolsOk(up, vg.id, ServersOf(byVG, vg.id), active, prev.value);
    }
  }

  /** A group's servers all get their pools listed exactly when none of those listings fails. */
  lemma {:induction false} GroupPoolsSuccess(up: Upstream, gid: int, servers: seq<LicenseServer>,
                                             active: map<string, real>, o: PoolOutput)
    ensures GroupPools(up, gid, servers, active, Success(o)).Success? <==> GroupListed(up, gid, servers)
  {
    if servers != [] {
      var init := servers[..|servers| - 1];
      GroupPoolsSuccess(up, gid, init, active, o);
      assert forall j :: 0 <= j < |init| ==> init[j] == servers[j];
    }
  }

  /** Every pool listing of every server of every listed group succeeds. */
  predicate PoolsListed(up: Upstream, vgs: seq<VirtualGroup>, byVG: map<int, seq<LicenseServer>>) {
    forall i, j :: 0 <= i < |vgs| && 0 <= j < |ServersOf(byVG, vgs[i].id)| ==>
      up.licensePools(vgs[i].id, ServersOf(byVG, vgs[i].id)[j].id).Success?
  }

  /** Every pool listing of one group's servers succeeds. */
  predicate GroupListed(up: Upstream, gid: int, servers: seq<LicenseServer>) {
    forall j :: 0 <= j < |servers| ==> up.licensePools(gid, servers[j].id).Success?
  }

  lemma PoolsListedSnoc(up: Upstream, vgs: seq<VirtualGroup>, byVG: map<int, seq<LicenseServer>>)
    requires vgs != []
    ensures var vg := vgs[|vgs| - 1];
            PoolsListed(up, vgs, byVG)
            <==> PoolsListed(up, vgs[..|vgs| - 1], byVG) && GroupListed(up, vg.id, ServersOf(byVG, vg.id))
  {
    var init := vgs[..|vgs| - 1];
    assert forall i :: 0 <= i < |init| ==> init[i] == vgs[i];
  }

  /** The pool phase succeeds exactly when every pool listing it makes succeeds. */
  lemma {:induction false} AllPoolsSuccess(up: Upstream, vgs: seq<VirtualGroup>, byVG: map<int, seq<LicenseServer>>,
                                           active: map<string, real>)
    ensures AllPools(up, vgs, byVG, active).Success? <==> PoolsListed(up, vgs, byVG)
  {
    if vgs != [] {
      var init, vg := vgs[..|vgs| - 1], vgs[|vgs| - 1];
      AllPoolsSuccess(up, init, byVG, active);
      PoolsListedSnoc(up, vgs, byVG);
      var prev := AllPools(up, init, byVG, active);
      assert AllPools(up, vgs, byVG, active) == GroupPools(up, vg.id, ServersOf(byVG, vg.id), active, prev);
      if prev.Failure? {
        GroupPoolsOfFailure(up, vg.id, ServersOf(byVG, vg.id), active, prev.error);
      } else {
        GroupPoolsSuccess(up, vg.id, ServersOf(byVG, vg.id), active, prev.value);
      }
    }
  }
}
