/**
 * Phase 3 of `FetchSnapshot` (internal/cls/client.go, `fetchActiveLeaseUsage`): per virtual group,
 * index the servers and their features, ask every service instance for its active-lease clients,
 * resolve each client to a server, and add each lease's count to the server's total, to its
 * (group, server, feature) total and to the grand total, counting a non-blank lease id once.
 *
 * Go iterates `serversByVG` and the service-instance set in their (random) map order and runs the
 * listings concurrently; here groups come in a given `order`, service instances in
 * first-occurrence order, and the listings are taken one after the other.
 */
module ActiveLeases {
  import opened Results
  import opened Text
  import opened Sums
  import opened ClsTypes
  import opened ClsClient

  /** `activeFeatureKey`: what a feature total is kept under. */
  datatype ActiveFeatureKey = ActiveFeatureKey(
    virtualGroupId: int, virtualGroupName: string, serverId: string, serverName: string,
    featureName: string, productName: string, licenseType: string)

  // ---- The per-group index ----

  function ServerKey(s: LicenseServer): string { s.id }

  function FeatureKey(f: LicenseServerFeature): string { f.id }

  /** The map a loop builds by writing `m[key(x)] := x` for each `x` of `xs` in turn. */
  function IndexBy<T>(m: map<string, T>, xs: seq<T>, key: T -> string): map<string, T> {
    if xs == [] then m else IndexBy(m, xs[..|xs| - 1], key)[key(xs[|xs| - 1]) := xs[|xs| - 1]]
  }

  /** The listed keys are the keys of `m` and those of `xs`; each of `xs`'s keys holds its last element. */
  lemma {:induction false} IndexByLastWins<T>(m: map<string, T>, xs: seq<T>, key: T -> string, id: string)
    ensures id in IndexBy(m, xs, key) <==> id in m || exists i :: 0 <= i < |xs| && key(xs[i]) == id
    ensures forall i :: (0 <= i < |xs| && key(xs[i]) == id && forall j :: i < j < |xs| ==> key(xs[j]) != id)
                        ==> IndexBy(m, xs, key)[id] == xs[i]
    ensures (forall i :: 0 <= i < |xs| ==> key(xs[i]) != id) && id in m ==> IndexBy(m, xs, key)[id] == m[id]
  {
    if xs != [] {
      var init := xs[..|xs| - 1];
      IndexByLastWins(m, init, key, id);
      assert forall i :: 0 <= i < |init| ==> init[i] == xs[i];
    }
  }

  lemma IndexByAppend<T>(m: map<string, T>, a: seq<T>, b: seq<T>, key: T -> string)
    ensures IndexBy(m, a + b, key) == IndexBy(IndexBy(m, a, key), b, key)
    decreases |b|
  {
    if b != [] {
      assert (a + b)[..|a + b| - 1] == a + b[..|b| - 1];
      IndexByAppend(m, a, b[..|b| - 1], key);
    } else {
      assert a + b == a;
    }
  }

  /** The features of a run of servers, in order. */
  function ServerFeatures(servers: seq<LicenseServer>): seq<LicenseServerFeature> {
    if servers == [] then []
    else ServerFeatures(servers[..|servers| - 1]) + servers[|servers| - 1].licenseServerFeatures
  }

  /** The elements of `xs` that satisfy `keep`, each once, in the order they first occur. */
  function KeepFirst<T(==)>(xs: seq<T>, keep: T -> bool): (ys: seq<T>)
    ensures Distinct(ys)
    ensures forall n :: 0 <= n < |ys| ==> keep(ys[n])
  {
    if xs == [] then []
    else
      var prev := KeepFirst(xs[..|xs| - 1], keep);
      var x := xs[|xs| - 1];
      if keep(x) && x !in prev then (assert (prev + [x])[|prev|] == x; prev + [x]) else prev
  }

  /** `KeepFirst` keeps exactly the elements of `xs` that satisfy `keep`. */
  lemma {:induction false} KeepFirstExact<T>(xs: seq<T>, keep: T -> bool, x: T)
    ensures x in KeepFirst(xs, keep) <==> keep(x) && x in xs
  {
    if xs != [] {
      var init := xs[..|xs| - 1];
      KeepFirstExact(init, keep, x);
      assert xs == init + [xs[|xs| - 1]];
    }
  }

  /** A service instance id is one whose trimmed form is not blank. */
  predicate IsInstanceId(si: string) { TrimSpace(si) != "" }

  function InstanceIds(servers: seq<LicenseServer>): (ids: seq<string>)
    ensures |ids| == |servers|
    ensures forall i :: 0 <= i < |servers| ==> ids[i] == servers[i].serviceInstanceId
  {
    seq(|servers|, i requires 0 <= i < |servers| => servers[i].serviceInstanceId)
  }

  /**
   * The service instances of a group: the (untrimmed) ids whose trimmed form is non-blank, each
   * once, in the order they first occur among the servers.
   */
  function ServiceInstances(servers: seq<LicenseServer>): seq<string> {
    KeepFirst(InstanceIds(servers), IsInstanceId)
  }

  /** An id is a service instance of the group exactly when some server carries it and it is not blank. */
  lemma ServiceInstancesExact(servers: seq<LicenseServer>, si: string)
    ensures Distinct(ServiceInstances(servers))
    ensures si in ServiceInstances(servers) <==>
              TrimSpace(si) != "" && exists i :: 0 <= i < |servers| && servers[i].serviceInstanceId == si
  {
    KeepFirstExact(InstanceIds(servers), IsInstanceId, si);
    if si in InstanceIds(servers) {
      var i :| 0 <= i < |servers| && InstanceIds(servers)[i] == si;
    }
  }

  /** What the group's loop over its servers builds before any lease is listed. */
  datatype GroupIndex = GroupIndex(
    virtualGroupId: int, virtualGroupName: string, firstServerId: string,
    serverById: map<string, LicenseServer>,
    featureByAllotmentId: map<string, LicenseServerFeature>,
    serviceInstanceIds: seq<string>)

  /** The index of group `gid` with (non-empty) server list `servers`. */
  function IndexOf(gid: int, servers: seq<LicenseServer>): GroupIndex
    requires servers != []
  {
    GroupIndex(gid, servers[0].virtualGroupName, servers[0].id,
               IndexBy(map[], servers, ServerKey),
               IndexBy(map[], ServerFeatures(servers), FeatureKey),
               ServiceInstances(servers))
  }

  /** The inner loop: records each feature of one server under its id. */
  method IndexFeatures(m: map<string, LicenseServerFeature>, fs: seq<LicenseServerFeature>)
    returns (m': map<string, LicenseServerFeature>)
    ensures m' == IndexBy(m, fs, FeatureKey)
  {
    m' := m;
    for j := 0 to |fs|
      invariant m' == IndexBy(m, fs[..j], FeatureKey)
    {
      assert fs[..j + 1][..j] == fs[..j];
      m' := m'[fs[j].id := fs[j]];
    }
    assert fs[..|fs|] == fs;
  }

  lemma ServerFeaturesStep(servers: seq<LicenseServer>, i: int)
    requires 0 <= i < |servers|
    ensures ServerFeatures(servers[..i + 1]) == ServerFeatures(servers[..i]) + servers[i].licenseServerFeatures
  {
    assert servers[..i + 1][..i] == servers[..i];
  }

  lemma KeepFirstStep<T>(xs: seq<T>, keep: T -> bool, i: int)
    requires 0 <= i < |xs|
    ensures KeepFirst(xs[..i + 1], keep) ==
              var prev := KeepFirst(xs[..i], keep);
              if keep(xs[i]) && xs[i] !in prev then prev + [xs[i]] else prev
  {
    assert xs[..i + 1][..i] == xs[..i];
  }

  /** One server's contribution to the instance set: its id, unless blank or already there. */
  method NoteInstance(ghost ids: seq<string>, ghost i: int, sis: seq<string>, si: string)
    returns (sis': seq<string>)
    requires 0 <= i < |ids| && ids[i] == si
    requires sis == KeepFirst(ids[..i], IsInstanceId)
    ensures sis' == KeepFirst(ids[..i + 1], IsInstanceId)
  {
    KeepFirstStep(ids, IsInstanceId, i);
    sis' := sis;
    if TrimSpace(si) != "" && si !in sis {
      sis' := sis + [si];
    }
  }

  /** The loop over a group's servers that fills `serverByID`, `featureByAllotmentID` and the instance set. */
  method IndexGroup(gid: int, servers: seq<LicenseServer>) returns (idx: GroupIndex)
    requires servers != []
    ensures idx == IndexOf(gid, servers)
  {
    var serverById: map<string, LicenseServer> := map[];
    var featureById: map<string, LicenseServerFeature> := map[];
    var sis: seq<string> := [];
    ghost var ids := InstanceIds(servers);
    for i := 0 to |servers|
      invariant serverById == IndexBy(map[], servers[..i], ServerKey)
      invariant featureById == IndexBy(map[], ServerFeatures(servers[..i]), FeatureKey)
      invariant sis == KeepFirst(ids[..i], IsInstanceId)
    {
      var server := servers[i];
      assert servers[..i + 1][..i] == servers[..i];
      serverById := serverById[server.id := server];
      IndexByAppend(map[], ServerFeatures(servers[..i]), server.licenseServerFeatures, FeatureKey);
      ServerFeaturesStep(servers, i);
      featureById := IndexFeatures(featureById, server.licenseServerFeatures);
      sis := NoteInstance(ids, i, sis, server.serviceInstanceId);
    }
    assert servers[..|servers|] == servers;
    assert ids[..|servers|] == ids;
    idx := GroupIndex(gid, servers[0].virtualGroupName, servers[0].id, serverById, featureById, sis);
  }

  /** A server id names an entry of the index exactly when some server of the group has it. */
  lemma ServerIndexKeys(servers: seq<LicenseServer>, id: string)
    ensures id in IndexBy(map[], servers, ServerKey) <==> exists i :: 0 <= i < |servers| && servers[i].id == id
  {
    IndexByLastWins(map[], servers, ServerKey, id);
  }

  /** When the group has one distinct server id, the index's only key is the id of its first server. */
  lemma OnlyServerIsFirst(servers: seq<LicenseServer>)
    requires servers != []
    requires |IndexBy(map[], servers, ServerKey)| == 1
    ensures IndexBy(map[], servers, ServerKey).Keys == {servers[0].id}
  {
    var m := IndexBy(map[], servers, ServerKey);
    ServerIndexKeys(servers, servers[0].id);
    assert servers[0].id in m.Keys;
    assert |m.Keys - {servers[0].id}| == 0;
  }

  // ---- From a listed client to lease entries ----

  /**
   * The server a client's leases are charged to: its trimmed `license_server_id`, or, when that is
   * blank and the group has exactly one server id, that id; "" means the client is skipped.
   */
  function ResolveServerId(idx: GroupIndex, client: ActiveLeaseClient): string {
    var explicit := TrimSpace(client.licenseServerId);
    if explicit == "" && |idx.serverById| == 1 then idx.firstServerId else explicit
  }

  /** The server record for `sid`, or the zero server when the group has none with that id. */
  function ServerFor(idx: GroupIndex, sid: string): LicenseServer {
    if sid in idx.serverById then idx.serverById[sid] else ZeroServer
  }

  /** The feature an allotment id names in the group, or the zero feature. */
  function FeatureFor(idx: GroupIndex, allotmentId: string): LicenseServerFeature {
    if allotmentId in idx.featureByAllotmentId then idx.featureByAllotmentId[allotmentId] else ZeroServerFeature
  }

  /** The server name reported for a client: its own, else the server record's, else "unknown". */
  function ServerNameFor(client: ActiveLeaseClient, server: LicenseServer): string {
    var name := FirstNonBlank([client.licenseServerName, server.name]);
    if name == "" then "unknown" else name
  }

  /** One lease once resolved: its trimmed id, the server it is charged to, its feature key and count. */
  datatype LeaseEntry = LeaseEntry(leaseId: string, serverId: string, key: ActiveFeatureKey, count: real)

  /** The entry for `lease` of a client charged to server `sid`, named `serverName`. */
  function EntryFor(idx: GroupIndex, sid: string, server: LicenseServer, serverName: string, lease: ActiveLease)
    : LeaseEntry
  {
    var feature := FeatureFor(idx, lease.licenseAllotmentFeatureId);
    var featureName := FirstNonBlank([lease.featureName, feature.featureName]);
    var key := ActiveFeatureKey(
      idx.virtualGroupId,
      FirstNonBlank([server.virtualGroupName, idx.virtualGroupName]),
      sid,
      serverName,
      FirstNonBlank([featureName, "unknown"]),
      FirstNonBlank([feature.productName, "unknown"]),
      FirstNonBlank([feature.licenseType, "unknown"]));
    LeaseEntry(TrimSpace(lease.leaseId), sid, key, NormalizeLeaseCount(lease.leaseCount))
  }

  /** The entries of one client: none when it resolves to no server, else one per lease, in order. */
  function ClientEntries(idx: GroupIndex, client: ActiveLeaseClient): (es: seq<LeaseEntry>) {
    var sid := ResolveServerId(idx, client);
    if sid == "" then []
    else
      var server := ServerFor(idx, sid);
      LeaseEntries(idx, sid, server, ServerNameFor(client, server), client.leases)
  }

  /** One entry per lease of a client charged to `sid`, in order. */
  function LeaseEntries(idx: GroupIndex, sid: string, server: LicenseServer, serverName: string,
                        leases: seq<ActiveLease>): (es: seq<LeaseEntry>)
    ensures |es| == |leases|
    ensures forall n :: 0 <= n < |leases| ==> es[n] == EntryFor(idx, sid, server, serverName, leases[n])
  {
    seq(|leases|, n requires 0 <= n < |leases| => EntryFor(idx, sid, server, serverName, leases[n]))
  }

  /** The entries of one service instance's response: each client's in turn. */
  function ResponseEntries(idx: GroupIndex, clients: seq<ActiveLeaseClient>): seq<LeaseEntry> {
    if clients == [] then []
    else ResponseEntries(idx, clients[..|clients| - 1]) + ClientEntries(idx, clients[|clients| - 1])
  }

  /** Every lease entry carries a positive count and names the server it is charged to in its key. */
  predicate WellFormed(idx: GroupIndex, e: LeaseEntry) {
    e.count > 0.0 && e.serverId != "" && e.key.serverId == e.serverId
    && e.key.virtualGroupId == idx.virtualGroupId
    && e.key.serverName != "" && e.key.featureName != "" && e.key.productName != "" && e.key.licenseType != ""
  }

  /** A value defaulted to "unknown" is never empty. */
  lemma OrUnknownNonEmpty(x: string)
    ensures FirstNonBlank([x, "unknown"]) != ""
  {
    assert !IsSpace("unknown"[0]);
    assert !IsBlank([x, "unknown"][1]);
    FirstNonBlankSpec([x, "unknown"]);
  }

  lemma EntryForWellFormed(idx: GroupIndex, sid: string, server: LicenseServer, serverName: string, lease: ActiveLease)
    requires sid != "" && serverName != ""
    ensures WellFormed(idx, EntryFor(idx, sid, server, serverName, lease))
  {
    var feature := FeatureFor(idx, lease.licenseAllotmentFeatureId);
    OrUnknownNonEmpty(FirstNonBlank([lease.featureName, feature.featureName]));
    OrUnknownNonEmpty(feature.productName);
    OrUnknownNonEmpty(feature.licenseType);
  }

  lemma ClientEntriesWellFormed(idx: GroupIndex, client: ActiveLeaseClient)
    ensures forall n :: 0 <= n < |ClientEntries(idx, client)| ==> WellFormed(idx, ClientEntries(idx, client)[n])
  {
    var sid := ResolveServerId(idx, client);
    if sid != "" {
      var server := ServerFor(idx, sid);
      var serverName := ServerNameFor(client, server);
      forall n | 0 <= n < |client.leases|
        ensures WellFormed(idx, EntryFor(idx, sid, server, serverName, client.leases[n]))
      {
        EntryForWellFormed(idx, sid, server, serverName, client.leases[n]);
      }
    }
  }

  lemma {:induction false} ResponseEntriesWellFormed(idx: GroupIndex, clients: seq<ActiveLeaseClient>)
    ensures forall n :: 0 <= n < |ResponseEntries(idx, clients)| ==> WellFormed(idx, ResponseEntries(idx, clients)[n])
  {
    if clients != [] {
      ResponseEntriesWellFormed(idx, clients[..|clients| - 1]);
      ClientEntriesWellFormed(idx, clients[|clients| - 1]);
    }
  }

  /**
   * A client whose own server id is blank, in a group with a single server id, is charged to that
   * id (Go takes the only key of `serverByID`).
   */
  lemma ResolveToOnlyServer(gid: int, servers: seq<LicenseServer>, client: ActiveLeaseClient)
    requires servers != []
    requires TrimSpace(client.licenseServerId) == ""
    requires |IndexOf(gid, servers).serverById| == 1
    ensures IndexOf(gid, servers).serverById.Keys == {ResolveServerId(IndexOf(gid, servers), client)}
  {
    OnlyServerIsFirst(servers);
  }

  /** A client with a non-blank server id is charged to that id, trimmed, whatever the group holds. */
  lemma ResolveExplicit(idx: GroupIndex, client: ActiveLeaseClient)
    requires !IsBlank(client.licenseServerId)
    ensures ResolveServerId(idx, client) == TrimSpace(client.licenseServerId) != ""
  {
    TrimSpaceSpec(client.licenseServerId);
  }

  /** A client with a blank server id in a group with zero or several server ids yields no entries. */
  lemma ResolveAmbiguousSkips(idx: GroupIndex, client: ActiveLeaseClient)
    requires IsBlank(client.licenseServerId)
    requires |idx.serverById| != 1
    ensures ClientEntries(idx, client) == []
  {
    TrimSpaceSpec(client.licenseServerId);
  }

  // ---- The running totals ----

  /**
   * The accumulators of `fetchActiveLeaseUsage`: the lease ids already counted, the totals per
   * server id and per feature key, the order in which feature keys first appeared, and the total.
   */
  datatype Tally = Tally(
    seenLeaseIds: set<string>,
    serverTotals: map<string, real>,
    featureTotals: map<ActiveFeatureKey, real>,
    featureOrder: seq<ActiveFeatureKey>,
    total: real)

  const EmptyTally := Tally({}, map[], map[], [], 0.0)

  /** A missing key of a Go `map[K]float64` reads as 0. */
  function Get<K>(m: map<K, real>, k: K): real {
    if k in m then m[k] else 0.0
  }

  /** Whether an entry is skipped: its lease id is non-blank and was counted before. */
  predicate Seen(t: Tally, e: LeaseEntry) {
    e.leaseId != "" && e.leaseId in t.seenLeaseIds
  }

  /** The totals after adding `e`'s count under its server, its key and the grand total. */
  function Added(t: Tally, e: LeaseEntry): Tally {
    Tally(
      if e.leaseId != "" then t.seenLeaseIds + {e.leaseId} else t.seenLeaseIds,
      t.serverTotals[e.serverId := Get(t.serverTotals, e.serverId) + e.count],
      t.featureTotals[e.key := Get(t.featureTotals, e.key) + e.count],
      if e.key in t.featureTotals then t.featureOrder else t.featureOrder + [e.key],
      t.total + e.count)
  }

  /** Counting one entry: a non-blank lease id already seen is skipped; otherwise all totals grow. */
  function Count(t: Tally, e: LeaseEntry): Tally {
    if Seen(t, e) then t else Added(t, e)
  }

  /** Counting a run of entries in order. */
  function TallyFrom(t: Tally, es: seq<LeaseEntry>): Tally {
    if es == [] then t else Count(TallyFrom(t, es[..|es| - 1]), es[|es| - 1])
  }

  lemma TallyFromStep(t: Tally, es: seq<LeaseEntry>, n: int)
    requires 0 <= n < |es|
    ensures TallyFrom(t, es[..n + 1]) == Count(TallyFrom(t, es[..n]), es[n])
  {
    assert es[..n + 1][..n] == es[..n];
  }

  lemma {:induction false} TallyFromAppend(t: Tally, a: seq<LeaseEntry>, b: seq<LeaseEntry>)
    ensures TallyFrom(t, a + b) == TallyFrom(TallyFrom(t, a), b)
    decreases |b|
  {
    if b == [] {
      assert a + b == a;
    } else {
      assert (a + b)[..|a + b| - 1] == a + b[..|b| - 1];
      TallyFromAppend(t, a, b[..|b| - 1]);
    }
  }

  /** `order` lists each key of `m` exactly once. */
  ghost predicate ListsKeys<K>(order: seq<K>, m: map<K, real>) {
    Distinct(order)
    && (forall n :: 0 <= n < |order| ==> order[n] in m)
    && (forall k :: k in m ==> exists n :: 0 <= n < |order| && order[n] == k)
  }

  ghost predicate Positive<K>(m: map<K, real>) {
    forall k :: k in m ==> m[k] > 0.0
  }

  /**
   * What the totals keep: `featureOrder` lists each feature key once; all totals are positive; and
   * the grand total is the sum of the server totals, of the feature totals, and of the feature
   * totals in listed order.
   */
  ghost predicate TallyInv(t: Tally) {
    ListsKeys(t.featureOrder, t.featureTotals)
    && Positive(t.serverTotals) && Positive(t.featureTotals)
    && t.total == MapSum(t.serverTotals)
    && t.total == MapSum(t.featureTotals)
    && t.total == SumOver(t.featureOrder, t.featureTotals)
  }

  lemma EmptyTallyInv()
    ensures TallyInv(EmptyTally)
  {
    assert EmptyTally.serverTotals == map[];
  }

  lemma AddedServerTotals(t: Tally, e: LeaseEntry)
    requires TallyInv(t) && e.count > 0.0
    ensures Positive(Added(t, e).serverTotals)
    ensures MapSum(Added(t, e).serverTotals) == t.total + e.count
  {
    MapSumUpdate(t.serverTotals, e.serverId, Get(t.serverTotals, e.serverId) + e.count);
  }

  lemma AddedFeatureTotals(t: Tally, e: LeaseEntry)
    requires TallyInv(t) && e.count > 0.0
    ensures Positive(Added(t, e).featureTotals)
    ensures MapSum(Added(t, e).featureTotals) == t.total + e.count
  {
    MapSumUpdate(t.featureTotals, e.key, Get(t.featureTotals, e.key) + e.count);
  }

  lemma AddedKnownKey(t: Tally, e: LeaseEntry)
    requires TallyInv(t) && e.key in t.featureTotals
    ensures ListsKeys(Added(t, e).featureOrder, Added(t, e).featureTotals)
    ensures SumOver(Added(t, e).featureOrder, Added(t, e).featureTotals) == t.total + e.count
  {
    SumOverUpdateListed(t.featureOrder, t.featureTotals, e.key, t.featureTotals[e.key] + e.count);
  }

  lemma AddedNewKey(t: Tally, e: LeaseEntry)
    requires TallyInv(t) && e.key !in t.featureTotals
    ensures ListsKeys(Added(t, e).featureOrder, Added(t, e).featureTotals)
    ensures SumOver(Added(t, e).featureOrder, Added(t, e).featureTotals) == t.total + e.count
  {
    var m := t.featureTotals[e.key := e.count];
    var order := t.featureOrder + [e.key];
    assert Added(t, e).featureTotals == m && Added(t, e).featureOrder == order;
    SumOverUpdateUnlisted(t.featureOrder, t.featureTotals, e.key, e.count);
    SumOverAppend(t.featureOrder, m, e.key);
    assert order[|t.featureOrder|] == e.key;
  }

  /** Counting an entry with a positive count keeps the invariant. */
  lemma CountInv(t: Tally, e: LeaseEntry)
    requires TallyInv(t) && e.count > 0.0
    ensures TallyInv(Count(t, e))
  {
    if !Seen(t, e) {
      AddedServerTotals(t, e);
      AddedFeatureTotals(t, e);
      if e.key in t.featureTotals {
        AddedKnownKey(t, e);
      } else {
        AddedNewKey(t, e);
      }
    }
  }

  lemma {:induction false} TallyFromInv(t: Tally, es: seq<LeaseEntry>)
    requires TallyInv(t)
    requires forall n :: 0 <= n < |es| ==> es[n].count > 0.0
    ensures TallyInv(TallyFrom(t, es))
  {
    if es != [] {
      TallyFromInv(t, es[..|es| - 1]);
      CountInv(TallyFrom(t, es[..|es| - 1]), es[|es| - 1]);
    }
  }

  // ---- Lease-id de-duplication ----

  /** The non-blank lease ids of a run of entries. */
  function LeaseIds(es: seq<LeaseEntry>): set<string> {
    set n | 0 <= n < |es| && es[n].leaseId != "" :: es[n].leaseId
  }

  /** The ids seen after counting `es` are those seen before and the non-blank ids of `es`. */
  lemma {:induction false} TallySeen(t: Tally, es: seq<LeaseEntry>)
    ensures TallyFrom(t, es).seenLeaseIds == t.seenLeaseIds + LeaseIds(es)
  {
    if es != [] {
      var init := es[..|es| - 1];
      TallySeen(t, init);
      assert forall n :: 0 <= n < |init| ==> init[n] == es[n];
      assert LeaseIds(es) == LeaseIds(init) + (if es[|es| - 1].leaseId != "" then {es[|es| - 1].leaseId} else {});
    }
  }

  /** A lease whose non-blank id was counted before changes nothing. */
  lemma RepeatedLeaseIgnored(t: Tally, es: seq<LeaseEntry>, e: LeaseEntry)
    requires e.leaseId != "" && e.leaseId in t.seenLeaseIds + LeaseIds(es)
    ensures TallyFrom(t, es + [e]) == TallyFrom(t, es)
  {
    assert (es + [e])[..|es|] == es;
    TallySeen(t, es);
  }

  /** A lease with a blank id is always counted, however many came before. */
  lemma BlankLeaseCounted(t: Tally, es: seq<LeaseEntry>, e: LeaseEntry)
    requires e.leaseId == ""
    ensures TallyFrom(t, es + [e]).total == TallyFrom(t, es).total + e.count
    ensures Get(TallyFrom(t, es + [e]).serverTotals, e.serverId) == Get(TallyFrom(t, es).serverTotals, e.serverId) + e.count
  {
    assert (es + [e])[..|es|] == es;
  }

  /**
   * Entry `n` of `es` is counted when its id is blank, or when neither the ids seen before nor an
   * earlier entry of `es` carries it.
   */
  predicate Counted(seen: set<string>, es: seq<LeaseEntry>, n: int)
    requires 0 <= n < |es|
  {
    es[n].leaseId == "" || (es[n].leaseId !in seen && forall j :: 0 <= j < n ==> es[j].leaseId != es[n].leaseId)
  }

  /** Reference total: the sum of the counts of the counted entries, for server `sid` only if given. */
  function CountedTotal(seen: set<string>, es: seq<LeaseEntry>, sid: Option<string>): real {
    if es == [] then 0.0
    else
      var n := |es| - 1;
      CountedTotal(seen, es[..n], sid)
      + (if Counted(seen, es, n) && (sid.None? || es[n].serverId == sid.value) then es[n].count else 0.0)
  }

  lemma CountedLast(t: Tally, es: seq<LeaseEntry>)
    requires es != []
    ensures Counted(t.seenLeaseIds, es, |es| - 1) <==> !Seen(TallyFrom(t, es[..|es| - 1]), es[|es| - 1])
  {
    var init, e := es[..|es| - 1], es[|es| - 1];
    TallySeen(t, init);
    if e.leaseId != "" && e.leaseId in LeaseIds(init) {
      var j :| 0 <= j < |init| && init[j].leaseId != "" && init[j].leaseId == e.leaseId;
      assert es[j] == init[j];
    }
    if e.leaseId != "" && e.leaseId !in LeaseIds(init) {
      forall j | 0 <= j < |es| - 1
        ensures es[j].leaseId != e.leaseId
      {
        assert init[j] == es[j];
      }
    }
  }

  /** The grand total grows by the reference total of the counted entries. */
  lemma {:induction false} TallyTotalIsCounted(t: Tally, es: seq<LeaseEntry>)
    ensures TallyFrom(t, es).total == t.total + CountedTotal(t.seenLeaseIds, es, None)
  {
    if es != [] {
      TallyTotalIsCounted(t, es[..|es| - 1]);
      CountedLast(t, es);
    }
  }

  /** So does each server's total, by the counted entries charged to it. */
  lemma {:induction false} TallyServerIsCounted(t: Tally, es: seq<LeaseEntry>, sid: string)
    ensures Get(TallyFrom(t, es).serverTotals, sid) == Get(t.serverTotals, sid) + CountedTotal(t.seenLeaseIds, es, Some(sid))
  {
    if es != [] {
      TallyServerIsCounted(t, es[..|es| - 1], sid);
      CountedLast(t, es);
    }
  }

  // ---- The loops of fetchActiveLeaseUsage ----

  /** The first half of the loop body over a client's leases: normalise the count, build the key. */
  method LeaseEntryOf(idx: GroupIndex, sid: string, server: LicenseServer, serverName: string, lease: ActiveLease)
    returns (e: LeaseEntry)
    ensures e == EntryFor(idx, sid, server, serverName, lease)
  {
    var leaseCount := lease.leaseCount;
    if leaseCount <= 0.0 {
      leaseCount := 1.0;
    }
    var feature := if lease.licenseAllotmentFeatureId in idx.featureByAllotmentId
                   then idx.featureByAllotmentId[lease.licenseAllotmentFeatureId] else ZeroServerFeature;
    var featureName := FirstNonEmptyNonBlank([lease.featureName, feature.featureName]);
    var productName := FirstNonEmptyNonBlank([feature.productName, "unknown"]);
    var licenseType := FirstNonEmptyNonBlank([feature.licenseType, "unknown"]);
    var groupName := FirstNonEmptyNonBlank([server.virtualGroupName, idx.virtualGroupName]);
    var keyFeature := FirstNonEmptyNonBlank([featureName, "unknown"]);
    var key := ActiveFeatureKey(idx.virtualGroupId, groupName, sid, serverName, keyFeature, productName, licenseType);
    e := LeaseEntry(TrimSpace(lease.leaseId), sid, key, leaseCount);
  }

  /** The second half: under the lock, skip a lease id already seen, else add the count everywhere. */
  method Record(t: Tally, e: LeaseEntry) returns (t': Tally)
    ensures t' == Count(t, e)
  {
    t' := t;
    if e.leaseId != "" {
      if e.leaseId in t.seenLeaseIds {
        return;
      }
      t' := t'.(seenLeaseIds := t'.seenLeaseIds + {e.leaseId});
    }
    var serverTotal := if e.serverId in t.serverTotals then t.serverTotals[e.serverId] else 0.0;
    var featureTotal := if e.key in t.featureTotals then t.featureTotals[e.key] else 0.0;
    t' := t'.(serverTotals := t.serverTotals[e.serverId := serverTotal + e.count],
              featureTotals := t.featureTotals[e.key := featureTotal + e.count],
              featureOrder := if e.key in t.featureTotals then t.featureOrder else t.featureOrder + [e.key],
              total := t.total + e.count);
  }

  /** The start of the loop body over a response's clients: which server, under which name. */
  method ResolveClient(idx: GroupIndex, client: ActiveLeaseClient)
    returns (sid: string, server: LicenseServer, serverName: string)
    ensures sid == ResolveServerId(idx, client)
    ensures server == ServerFor(idx, sid) && serverName == ServerNameFor(client, server)
  {
    sid := TrimSpace(client.licenseServerId);
    if sid == "" && |idx.serverById| == 1 {
      sid := idx.firstServerId;
    }
    server := if sid in idx.serverById then idx.serverById[sid] else ZeroServer;
    serverName := FirstNonEmptyNonBlank([client.licenseServerName, server.name]);
    if serverName == "" {
      serverName := "unknown";
    }
  }

  /** The loop over one client's leases, once its server is known. */
  method CountLeases(t: Tally, idx: GroupIndex, sid: string, server: LicenseServer, serverName: string,
                     leases: seq<ActiveLease>) returns (t': Tally)
    ensures t' == TallyFrom(t, LeaseEntries(idx, sid, server, serverName, leases))
  {
    ghost var es := LeaseEntries(idx, sid, server, serverName, leases);
    t' := t;
    for n := 0 to |leases|
      invariant t' == TallyFrom(t, es[..n])
    {
      TallyFromStep(t, es, n);
      var e := LeaseEntryOf(idx, sid, server, serverName, leases[n]);
      t' := Record(t', e);
    }
    assert es[..|leases|] == es;
  }

  /** The body of the loop over a response's clients: a client with no server is skipped. */
  method CountClient(t: Tally, idx: GroupIndex, client: ActiveLeaseClient) returns (t': Tally)
    ensures t' == TallyFrom(t, ClientEntries(idx, client))
  {
    var sid, server, serverName := ResolveClient(idx, client);
    if sid == "" {
      return t;
    }
    t' := CountLeases(t, idx, sid, server, serverName, client.leases);
  }

  /** The loop over one service instance's clients. */
  method CountResponse(t: Tally, idx: GroupIndex, clients: seq<ActiveLeaseClient>) returns (t': Tally)
    ensures t' == TallyFrom(t, ResponseEntries(idx, clients))
  {
    t' := t;
    for n := 0 to |clients|
      invariant t' == TallyFrom(t, ResponseEntries(idx, clients[..n]))
    {
      assert clients[..n + 1][..n] == clients[..n];
      TallyFromAppend(t, ResponseEntries(idx, clients[..n]), ClientEntries(idx, clients[n]));
      t' := CountClient(t', idx, clients[n]);
    }
    assert clients[..|clients|] == clients;
  }

  // ---- Listing the service instances of a group, and the groups ----

  /**
   * The entries of a group's service instances `sis`, listed in order; the first listing that
   * fails ends the phase with its error, wrapped with the group and the instance.
   */
  function GroupEntries(up: Upstream, idx: GroupIndex, sis: seq<string>): Result<seq<LeaseEntry>, FetchError> {
    if sis == [] then Success([])
    else
      match GroupEntries(up, idx, sis[..|sis| - 1])
      case Failure(e) => Failure(e)
      case Success(es) =>
        var si := sis[|sis| - 1];
        match up.activeLeases(idx.virtualGroupId, si)
        case Failure(err) => Failure(ListActiveLeasesFailed(idx.virtualGroupId, si, err))
        case Success(clients) => Success(es + ResponseEntries(idx, clients))
  }

  /** The entries of one group: none when it was listed with no servers, else its instances' entries. */
  function GroupListing(up: Upstream, gid: int, servers: seq<LicenseServer>): Result<seq<LeaseEntry>, FetchError> {
    if servers == [] then Success([])
    else GroupEntries(up, IndexOf(gid, servers), IndexOf(gid, servers).serviceInstanceIds)
  }

  /** The entries of the groups in `order`, group by group; the first failure is the phase's error. */
  function AllEntries(up: Upstream, order: seq<int>, byVG: map<int, seq<LicenseServer>>)
    : Result<seq<LeaseEntry>, FetchError>
    requires forall n :: 0 <= n < |order| ==> order[n] in byVG
  {
    if order == [] then Success([])
    else
      match AllEntries(up, order[..|order| - 1], byVG)
      case Failure(e) => Failure(e)
      case Success(es) =>
        match GroupListing(up, order[|order| - 1], byVG[order[|order| - 1]])
        case Failure(e) => Failure(e)
        case Success(g) => Success(es + g)
  }

  /** The totals after counting a listing's entries, or its error. */
  function TallyAfter(t: Tally, r: Result<seq<LeaseEntry>, FetchError>): Result<Tally, FetchError> {
    match r
    case Failure(e) => Failure(e)
    case Success(es) => Success(TallyFrom(t, es))
  }

  /** Once a prefix of the instances fails, the whole group fails with that error. */
  lemma {:induction false} GroupEntriesFailureSticks(up: Upstream, idx: GroupIndex, sis: seq<string>, n: int)
    requires 0 <= n <= |sis|
    requires GroupEntries(up, idx, sis[..n]).Failure?
    ensures GroupEntries(up, idx, sis) == GroupEntries(up, idx, sis[..n])
  {
    if n < |sis| {
      var init := sis[..|sis| - 1];
      assert init[..n] == sis[..n];
      GroupEntriesFailureSticks(up, idx, init, n);
    } else {
      assert sis[..n] == sis;
    }
  }

  /** The loop over a group's service instances (one errgroup task each, here one after another). */
  method CountGroup(t: Tally, up: Upstream, idx: GroupIndex) returns (r: Result<Tally, FetchError>)
    ensures r == TallyAfter(t, GroupEntries(up, idx, idx.serviceInstanceIds))
  {
    var sis := idx.serviceInstanceIds;
    ghost var es: seq<LeaseEntry> := [];
    var acc := t;
    for n := 0 to |sis|
      invariant GroupEntries(up, idx, sis[..n]) == Success(es)
      invariant acc == TallyFrom(t, es)
    {
      assert sis[..n + 1][..n] == sis[..n];
      var listed := up.activeLeases(idx.virtualGroupId, sis[n]);
      if listed.Failure? {
        GroupEntriesFailureSticks(up, idx, sis, n + 1);
        return Failure(ListActiveLeasesFailed(idx.virtualGroupId, sis[n], listed.error));
      }
      TallyFromAppend(t, es, ResponseEntries(idx, listed.value));
      acc := CountResponse(acc, idx, listed.value);
      es := es + ResponseEntries(idx, listed.value);
    }
    assert sis[..|sis|] == sis;
    r := Success(acc);
  }

  lemma {:induction false} AllEntriesFailureSticks(up: Upstream, order: seq<int>, byVG: map<int, seq<LicenseServer>>, n: int)
    requires forall k :: 0 <= k < |order| ==> order[k] in byVG
    requires 0 <= n <= |order|
    requires AllEntries(up, order[..n], byVG).Failure?
    ensures AllEntries(up, order, byVG) == AllEntries(up, order[..n], byVG)
  {
    if n < |order| {
      var init := order[..|order| - 1];
      assert init[..n] == order[..n];
      AllEntriesFailureSticks(up, init, byVG, n);
    } else {
      assert order[..n] == order;
    }
  }

  // ---- The rows ----

  /** The active-lease rows of one group: one per server whose id has a total, in server order. */
  function ServerRowsOf(gid: int, servers: seq<LicenseServer>, totals: map<string, real>): seq<ServerActiveLeaseRow> {
    if servers == [] then []
    else
      var s := servers[|servers| - 1];
      ServerRowsOf(gid, servers[..|servers| - 1], totals)
      + (if s.id in totals then [ServerActiveLeaseRow(gid, s.virtualGroupName, s.id, s.name, totals[s.id])] else [])
  }

  /** The active-lease rows of all groups, group by group. */
  function ServerRows(order: seq<int>, byVG: map<int, seq<LicenseServer>>, totals: map<string, real>)
    : seq<ServerActiveLeaseRow>
    requires forall n :: 0 <= n < |order| ==> order[n] in byVG
  {
    if order == [] then []
    else ServerRows(order[..|order| - 1], byVG, totals) + ServerRowsOf(order[|order| - 1], byVG[order[|order| - 1]], totals)
  }

  function FeatureRow(k: ActiveFeatureKey, count: real): ServerFeatureActiveLeaseRow {
    ServerFeatureActiveLeaseRow(k.virtualGroupId, k.virtualGroupName, k.serverId, k.serverName,
                                k.featureName, k.productName, k.licenseType, count)
  }

  /** One feature row per listed key, carrying that key's total. */
  function FeatureRows(order: seq<ActiveFeatureKey>, totals: map<ActiveFeatureKey, real>)
    : (rows: seq<ServerFeatureActiveLeaseRow>)
    ensures |rows| == |order|
    ensures forall n :: 0 <= n < |order| ==> rows[n] == FeatureRow(order[n], Get(totals, order[n]))
  {
    seq(|order|, n requires 0 <= n < |order| => FeatureRow(order[n], Get(totals, order[n])))
  }

  /** The five results of `fetchActiveLeaseUsage`, its error aside. */
  datatype ActiveLeaseUsage = ActiveLeaseUsage(
    serverTotals: map<string, real>,
    serverRows: seq<ServerActiveLeaseRow>,
    featureRows: seq<ServerFeatureActiveLeaseRow>,
    total: real)

  /** What `fetchActiveLeaseUsage` returns for the groups in `order`. */
  function ActiveLeaseUsageOf(up: Upstream, order: seq<int>, byVG: map<int, seq<LicenseServer>>)
    : Result<ActiveLeaseUsage, FetchError>
    requires forall n :: 0 <= n < |order| ==> order[n] in byVG
  {
    match AllEntries(up, order, byVG)
    case Failure(e) => Failure(e)
    case Success(es) =>
      var t := TallyFrom(EmptyTally, es);
      Success(ActiveLeaseUsage(t.serverTotals, ServerRows(order, byVG, t.serverTotals),
                               FeatureRows(t.featureOrder, t.featureTotals), t.total))
  }

  /** The loop after the listings that builds one row per server with a total, group by group. */
  method BuildServerRows(order: seq<int>, byVG: map<int, seq<LicenseServer>>, totals: map<string, real>)
    returns (rows: seq<ServerActiveLeaseRow>)
    requires forall n :: 0 <= n < |order| ==> order[n] in byVG
    ensures rows == ServerRows(order, byVG, totals)
  {
    rows := [];
    for n := 0 to |order|
      invariant rows == ServerRows(order[..n], byVG, totals)
    {
      assert order[..n + 1][..n] == order[..n];
      var gid := order[n];
      var servers := byVG[gid];
      ghost var before := rows;
      for j := 0 to |servers|
        invariant rows == before + ServerRowsOf(gid, servers[..j], totals)
      {
        assert servers[..j + 1][..j] == servers[..j];
        var server := servers[j];
        if server.id in totals {
          rows := rows + [ServerActiveLeaseRow(gid, server.virtualGroupName, server.id, server.name, totals[server.id])];
        }
      }
      assert servers[..|servers|] == servers;
    }
    assert order[..|order|] == order;
  }

  /** The loop over the feature totals that builds one row per key. */
  method BuildFeatureRows(order: seq<ActiveFeatureKey>, totals: map<ActiveFeatureKey, real>)
    returns (rows: seq<ServerFeatureActiveLeaseRow>)
    ensures rows == FeatureRows(order, totals)
  {
    rows := [];
    for n := 0 to |order|
      invariant |rows| == n
      invariant forall m :: 0 <= m < n ==> rows[m] == FeatureRow(order[m], Get(totals, order[m]))
    {
      var count := if order[n] in totals then totals[order[n]] else 0.0;
      rows := rows + [FeatureRow(order[n], count)];
    }
  }

  /** `fetchActiveLeaseUsage`: list every group's service instances, tally the leases, build the rows. */
  method FetchActiveLeaseUsage(up: Upstream, order: seq<int>, byVG: map<int, seq<LicenseServer>>)
    returns (r: Result<ActiveLeaseUsage, FetchError>)
    requires forall n :: 0 <= n < |order| ==> order[n] in byVG
    ensures r == ActiveLeaseUsageOf(up, order, byVG)
  {
    var t := EmptyTally;
    ghost var es: seq<LeaseEntry> := [];
    for n := 0 to |order|
      invariant AllEntries(up, order[..n], byVG) == Success(es)
      invariant t == TallyFrom(EmptyTally, es)
    {
      assert order[..n + 1][..n] == order[..n];
      var servers := byVG[order[n]];
      if servers == [] {
        assert es + [] == es;
        continue;
      }
      var idx := IndexGroup(order[n], servers);
      var counted := CountGroup(t, up, idx);
      if counted.Failure? {
        AllEntriesFailureSticks(up, order, byVG, n + 1);
        return Failure(counted.error);
      }
      ghost var g := GroupEntries(up, idx, idx.serviceInstanceIds).value;
      TallyFromAppend(EmptyTally, es, g);
      t := counted.value;
      es := es + g;
    }
    assert order[..|order|] == order;
    var serverRows := BuildServerRows(order, byVG, t.serverTotals);
    var featureRows := BuildFeatureRows(t.featureOrder, t.featureTotals);
    r := Success(ActiveLeaseUsage(t.serverTotals, serverRows, featureRows, t.total));
  }

  // ---- What the phase guarantees ----

  predicate PositiveCounts(es: seq<LeaseEntry>) {
    forall n :: 0 <= n < |es| ==> es[n].count > 0.0
  }

  lemma {:induction false} GroupEntriesPositive(up: Upstream, idx: GroupIndex, sis: seq<string>)
    requires GroupEntries(up, idx, sis).Success?
    ensures PositiveCounts(GroupEntries(up, idx, sis).value)
  {
    if sis != [] {
      GroupEntriesPositive(up, idx, sis[..|sis| - 1]);
      var listed := up.activeLeases(idx.virtualGroupId, sis[|sis| - 1]);
      ResponseEntriesWellFormed(idx, listed.value);
    }
  }

  lemma {:induction false} AllEntriesPositive(up: Upstream, order: seq<int>, byVG: map<int, seq<LicenseServer>>)
    requires forall n :: 0 <= n < |order| ==> order[n] in byVG
    requires AllEntries(up, order, byVG).Success?
    ensures PositiveCounts(AllEntries(up, order, byVG).value)
  {
    if order != [] {
      AllEntriesPositive(up, order[..|order| - 1], byVG);
      var servers := byVG[order[|order| - 1]];
      assert AllEntries(up, order, byVG).value
             == AllEntries(up, order[..|order| - 1], byVG).value + GroupListing(up, order[|order| - 1], servers).value;
      if servers != [] {
        var idx := IndexOf(order[|order| - 1], servers);
        GroupEntriesPositive(up, idx, idx.serviceInstanceIds);
      }
    }
  }

  /** The sum of the active leases of a run of feature rows. */
  function FeatureRowsTotal(rows: seq<ServerFeatureActiveLeaseRow>): real {
    if rows == [] then 0.0 else FeatureRowsTotal(rows[..|rows| - 1]) + rows[|rows| - 1].activeLeases
  }

  lemma {:induction false} FeatureRowsTotalIsSum(order: seq<ActiveFeatureKey>, totals: map<ActiveFeatureKey, real>)
    requires forall n :: 0 <= n < |order| ==> order[n] in totals
    ensures FeatureRowsTotal(FeatureRows(order, totals)) == SumOver(order, totals)
  {
    if order != [] {
      var init := order[..|order| - 1];
      FeatureRowsTotalIsSum(init, totals);
      assert FeatureRows(order, totals)[..|order| - 1] == FeatureRows(init, totals);
    }
  }

  /**
   * On success, the active-lease total equals the sum of the per-server totals and the sum of the
   * per-feature rows; every server total is positive, and so is every feature row.
   */
  lemma ActiveLeaseTotalsAgree(up: Upstream, order: seq<int>, byVG: map<int, seq<LicenseServer>>)
    requires forall n :: 0 <= n < |order| ==> order[n] in byVG
    requires ActiveLeaseUsageOf(up, order, byVG).Success?
    ensures var u := ActiveLeaseUsageOf(up, order, byVG).value;
            && u.total == MapSum(u.serverTotals)
            && u.total == FeatureRowsTotal(u.featureRows)
            && u.total >= 0.0
            && (forall sid :: sid in u.serverTotals ==> u.serverTotals[sid] > 0.0)
            && (forall n :: 0 <= n < |u.featureRows| ==> u.featureRows[n].activeLeases > 0.0)
  {
    var es := AllEntries(up, order, byVG).value;
    AllEntriesPositive(up, order, byVG);
    EmptyTallyInv();
    TallyFromInv(EmptyTally, es);
    var t := TallyFrom(EmptyTally, es);
    FeatureRowsTotalIsSum(t.featureOrder, t.featureTotals);
    TallyTotalIsCounted(EmptyTally, es);
    CountedTotalNonNegative({}, es, None);
  }

  lemma {:induction false} CountedTotalNonNegative(seen: set<string>, es: seq<LeaseEntry>, sid: Option<string>)
    requires PositiveCounts(es)
    ensures CountedTotal(seen, es, sid) >= 0.0
  {
    if es != [] {
      CountedTotalNonNegative(seen, es[..|es| - 1], sid);
    }
  }

  /**
   * On success, the total and each server's total are the reference sums over the listed leases
   * that are counted: those with a blank id, and the first with each non-blank id.
   */
  lemma ActiveLeasesCountedOnce(up: Upstream, order: seq<int>, byVG: map<int, seq<LicenseServer>>, sid: string)
    requires forall n :: 0 <= n < |order| ==> order[n] in byVG
    requires ActiveLeaseUsageOf(up, order, byVG).Success?
    ensures var u, es := ActiveLeaseUsageOf(up, order, byVG).value, AllEntries(up, order, byVG).value;
            && u.total == CountedTotal({}, es, None)
            && Get(u.serverTotals, sid) == CountedTotal({}, es, Some(sid))
  {
    var es := AllEntries(up, order, byVG).value;
    TallyTotalIsCounted(EmptyTally, es);
    TallyServerIsCounted(EmptyTally, es, sid);
  }

  /** Instance `j` is the first of `sis` whose active-lease listing fails. */
  predicate FirstFailingInstance(up: Upstream, gid: int, sis: seq<string>, j: int) {
    && 0 <= j < |sis|
    && up.activeLeases(gid, sis[j]).Failure?
    && (forall k :: 0 <= k < j ==> up.activeLeases(gid, sis[k]).Success?)
  }

  /** A group's listing fails exactly when one of its instances' listings fails. */
  lemma {:induction false} GroupEntriesFailure(up: Upstream, idx: GroupIndex, sis: seq<string>)
    ensures GroupEntries(up, idx, sis).Failure? <==>
              exists j :: 0 <= j < |sis| && up.activeLeases(idx.virtualGroupId, sis[j]).Failure?
  {
    if sis != [] {
      var gid := idx.virtualGroupId;
      var init := sis[..|sis| - 1];
      GroupEntriesFailure(up, idx, init);
      assert forall k :: 0 <= k < |init| ==> init[k] == sis[k];
      if GroupEntries(up, idx, init).Failure? {
        var j :| 0 <= j < |init| && up.activeLeases(gid, init[j]).Failure?;
        assert sis[j] == init[j];
      }
    }
  }

  /** A failing group listing reports the first instance whose listing fails, with its error. */
  lemma {:induction false} GroupEntriesFirstFailure(up: Upstream, idx: GroupIndex, sis: seq<string>)
    requires GroupEntries(up, idx, sis).Failure?
    ensures exists j :: FirstFailingInstance(up, idx.virtualGroupId, sis, j)
              && GroupEntries(up, idx, sis).error
                 == ListActiveLeasesFailed(idx.virtualGroupId, sis[j], up.activeLeases(idx.virtualGroupId, sis[j]).error)
  {
    var gid := idx.virtualGroupId;
    var init, last := sis[..|sis| - 1], sis[|sis| - 1];
    assert forall k :: 0 <= k < |init| ==> init[k] == sis[k];
    var prev := GroupEntries(up, idx, init);
    if prev.Failure? {
      GroupEntriesFirstFailure(up, idx, init);
      var j :| FirstFailingInstance(up, gid, init, j)
               && prev.error == ListActiveLeasesFailed(gid, init[j], up.activeLeases(gid, init[j]).error);
      assert sis[j] == init[j];
      assert FirstFailingInstance(up, gid, sis, j);
    } else {
      GroupEntriesFailure(up, idx, init);
      assert FirstFailingInstance(up, gid, sis, |sis| - 1);
    }
  }

  /** Whether group `gid`, listed with `servers`, has an instance whose listing fails. */
  predicate GroupFails(up: Upstream, gid: int, servers: seq<LicenseServer>) {
    GroupListing(up, gid, servers).Failure?
  }

  /** The phase fails exactly when some group in `order` with servers has a failing listing. */
  lemma {:induction false} AllEntriesFailure(up: Upstream, order: seq<int>, byVG: map<int, seq<LicenseServer>>)
    requires forall n :: 0 <= n < |order| ==> order[n] in byVG
    ensures AllEntries(up, order, byVG).Failure? <==>
              exists n :: 0 <= n < |order| && GroupFails(up, order[n], byVG[order[n]])
  {
    if order != [] {
      var init, last := order[..|order| - 1], order[|order| - 1];
      AllEntriesFailure(up, init, byVG);
      assert forall k :: 0 <= k < |init| ==> init[k] == order[k];
      if AllEntries(up, init, byVG).Failure? {
        var n :| 0 <= n < |init| && GroupFails(up, init[n], byVG[init[n]]);
        assert order[n] == init[n];
      } else if GroupFails(up, last, byVG[last]) {
        assert order[|order| - 1] == last;
      } else {
        assert forall n :: 0 <= n < |order| ==> !GroupFails(up, order[n], byVG[order[n]]);
      }
    }
  }

  /** Rows for servers: exactly one per (group, server) pair whose server id has a total. */
  lemma {:induction false} ServerRowsOfExact(gid: int, servers: seq<LicenseServer>, totals: map<string, real>,
                                             row: ServerActiveLeaseRow)
    ensures row in ServerRowsOf(gid, servers, totals) <==>
              exists j :: 0 <= j < |servers| && servers[j].id in totals
                && row == ServerActiveLeaseRow(gid, servers[j].virtualGroupName, servers[j].id, servers[j].name, totals[servers[j].id])
  {
    if servers != [] {
      var init := servers[..|servers| - 1];
      ServerRowsOfExact(gid, init, totals, row);
      assert forall k :: 0 <= k < |init| ==> init[k] == servers[k];
    }
  }
}
