/**
 * The licensing API client's configuration and the pure pieces of `FetchSnapshot`
 * (internal/cls/client.go): `NewClient`, `maxFloat64`, `firstNonEmptyNonBlank`, the lease-count
 * normalisation, the server back-fill of phase 2 and the entitlement extraction of phase 1.
 */
module ClsClient {
  import opened Results
  import opened Text
  import opened GoTime
  import opened ClsTypes

  const DefaultBaseUrl: string := "https://api.licensing.nvidia.com"
  const DefaultRequestTimeout: Duration := 15 * Second
  const DefaultParallelFetches: int := 8

  /** The `*http.Client` the client uses, reduced to its timeout. */
  datatype HttpClient = HttpClient(timeout: Duration)

  datatype Config = Config(
    baseUrl: string, apiKey: string, orgName: string, serviceInstanceId: string,
    httpClient: Option<HttpClient>, parallelFetches: int)

  datatype Client = Client(
    baseUrl: string, apiKey: string, orgName: string, serviceInstanceId: string,
    httpClient: HttpClient, parallelFetches: int)

  datatype ConfigError = ApiKeyRequired | OrgNameRequired

  // ---- NewClient ----

  /** The base URL before its trailing slash is stripped: the trimmed one, or the default if blank. */
  function ChosenBaseUrl(cfg: Config): string {
    if TrimSpace(cfg.baseUrl) == "" then DefaultBaseUrl else TrimSpace(cfg.baseUrl)
  }

  /**
   * `NewClient`: refuses a blank API key (checked first) or a blank org name; otherwise keeps the
   * trimmed credentials and service instance id, the chosen base URL without one trailing '/',
   * the given HTTP client or a default one with a 15 s timeout, and a positive parallelism
   * (8 when the configured one is not positive).
   */
  function NewClient(cfg: Config): (r: Result<Client, ConfigError>)
    ensures IsBlank(cfg.apiKey) ==> r == Failure(ApiKeyRequired)
    ensures !IsBlank(cfg.apiKey) && IsBlank(cfg.orgName) ==> r == Failure(OrgNameRequired)
    ensures r.Success? <==> !IsBlank(cfg.apiKey) && !IsBlank(cfg.orgName)
    ensures r.Success? ==>
      && r.value.apiKey == TrimSpace(cfg.apiKey) != ""
      && r.value.orgName == TrimSpace(cfg.orgName) != ""
      && r.value.serviceInstanceId == TrimSpace(cfg.serviceInstanceId)
    ensures r.Success? ==>
      && (HasSuffix(ChosenBaseUrl(cfg), "/") ==> r.value.baseUrl + "/" == ChosenBaseUrl(cfg))
      && (!HasSuffix(ChosenBaseUrl(cfg), "/") ==> r.value.baseUrl == ChosenBaseUrl(cfg))
      && (!IsBlank(cfg.baseUrl) ==> ChosenBaseUrl(cfg) == TrimSpace(cfg.baseUrl))
      && (IsBlank(cfg.baseUrl) ==> r.value.baseUrl == DefaultBaseUrl)
    ensures r.Success? ==>
      && r.value.httpClient == (if cfg.httpClient.Some? then cfg.httpClient.value else HttpClient(DefaultRequestTimeout))
      && r.value.parallelFetches > 0
      && (cfg.parallelFetches > 0 ==> r.value.parallelFetches == cfg.parallelFetches)
      && (cfg.parallelFetches <= 0 ==> r.value.parallelFetches == DefaultParallelFetches)
  {
    TrimSpaceSpec(cfg.apiKey);
    TrimSpaceSpec(cfg.orgName);
    TrimSpaceSpec(cfg.baseUrl);
    if TrimSpace(cfg.apiKey) == "" then Failure(ApiKeyRequired)
    else if TrimSpace(cfg.orgName) == "" then Failure(OrgNameRequired)
    else
      var baseUrl := TrimSuffix(ChosenBaseUrl(cfg), "/");
      assert !HasSuffix(DefaultBaseUrl, "/");
      var httpClient := if cfg.httpClient.Some? then cfg.httpClient.value else HttpClient(DefaultRequestTimeout);
      var parallelFetches := if cfg.parallelFetches <= 0 then DefaultParallelFetches else cfg.parallelFetches;
      Success(Client(baseUrl, TrimSpace(cfg.apiKey), TrimSpace(cfg.orgName),
                     TrimSpace(cfg.serviceInstanceId), httpClient, parallelFetches))
  }

  // ---- maxFloat64 ----

  /** `maxFloat64`: the larger of the two. */
  function MaxFloat64(a: real, b: real): (r: real)
    ensures r >= a && r >= b
    ensures r == a || r == b
  {
    if a > b then a else b
  }

  // ---- firstNonEmptyNonBlank ----

  /** The trimmed form of the first value that is not blank, or "" when every value is blank. */
  function FirstNonBlank(values: seq<string>): string {
    if values == [] then ""
    else if TrimSpace(values[0]) != "" then TrimSpace(values[0])
    else FirstNonBlank(values[1..])
  }

  /** Where the first non-blank value stands; `|values|` when there is none. */
  function FirstNonBlankIndex(values: seq<string>): (i: nat)
    ensures i <= |values|
    ensures i < |values| ==> !IsBlank(values[i])
    ensures forall j :: 0 <= j < i ==> IsBlank(values[j])
  {
    if values == [] then 0
    else
      TrimSpaceSpec(values[0]);
      if TrimSpace(values[0]) != "" then 0
      else
        var i := FirstNonBlankIndex(values[1..]);
        assert forall j :: 1 <= j < |values| ==> values[j] == values[1..][j - 1];
        1 + i
  }

  /**
   * `FirstNonBlank` is the trimmed form of the first value that is not blank, every value before
   * it being blank, and it is empty exactly when every value is blank.
   */
  lemma {:induction false} FirstNonBlankSpec(values: seq<string>)
    ensures var i := FirstNonBlankIndex(values);
            && (forall j :: 0 <= j < i ==> IsBlank(values[j]))
            && (i < |values| ==> !IsBlank(values[i]) && FirstNonBlank(values) == TrimSpace(values[i]) != "")
            && (i == |values| ==> FirstNonBlank(values) == "")
    ensures FirstNonBlank(values) == "" <==> forall j :: 0 <= j < |values| ==> IsBlank(values[j])
  {
    if values != [] {
      TrimSpaceSpec(values[0]);
      if TrimSpace(values[0]) == "" {
        FirstNonBlankSpec(values[1..]);
        assert forall j :: 1 <= j < |values| ==> values[j] == values[1..][j - 1];
      }
    }
  }

  /** `firstNonEmptyNonBlank`: scans the values in order and returns the first trimmed non-empty one. */
  method FirstNonEmptyNonBlank(values: seq<string>) returns (r: string)
    ensures r == FirstNonBlank(values)
  {
    var i := 0;
    while i < |values|
      invariant 0 <= i <= |values|
      invariant FirstNonBlank(values[i..]) == FirstNonBlank(values)
    {
      assert values[i..][1..] == values[i + 1..];
      var trimmed := TrimSpace(values[i]);
      if trimmed != "" {
        return trimmed;
      }
      i := i + 1;
    }
    return "";
  }

  // ---- Lease count normalisation ----

  /** A lease with a non-positive lease count counts as one lease. */
  function NormalizeLeaseCount(leaseCount: real): (r: real)
    ensures r > 0.0
    ensures leaseCount > 0.0 ==> r == leaseCount
    ensures leaseCount <= 0.0 ==> r == 1.0
  {
    if leaseCount <= 0.0 then 1.0 else leaseCount
  }

  // ---- Phase 2: server back-fill ----

  /**
   * A server listed under `vg` inherits the group's id when its own is 0 and the group's name when
   * its own is empty; a non-default id or name, and every other field, is kept.
   */
  function BackfillServer(vg: VirtualGroup, s: LicenseServer): (r: LicenseServer)
    ensures s.virtualGroupId != 0 ==> r.virtualGroupId == s.virtualGroupId
    ensures s.virtualGroupId == 0 ==> r.virtualGroupId == vg.id
    ensures s.virtualGroupName != "" ==> r.virtualGroupName == s.virtualGroupName
    ensures s.virtualGroupName == "" ==> r.virtualGroupName == vg.name
    ensures r == s.(virtualGroupId := r.virtualGroupId, virtualGroupName := r.virtualGroupName)
  {
    var withId := if s.virtualGroupId == 0 then s.(virtualGroupId := vg.id) else s;
    if withId.virtualGroupName == "" then withId.(virtualGroupName := vg.name) else withId
  }

  /** Back-filling twice changes nothing more. */
  lemma BackfillIdempotent(vg: VirtualGroup, s: LicenseServer)
    ensures BackfillServer(vg, BackfillServer(vg, s)) == BackfillServer(vg, s)
  {
  }

  /** The loop over a group's listed servers that back-fills each one in place. */
  method BackfillServers(vg: VirtualGroup, servers: seq<LicenseServer>) returns (filled: seq<LicenseServer>)
    ensures |filled| == |servers|
    ensures forall i :: 0 <= i < |servers| ==> filled[i] == BackfillServer(vg, servers[i])
  {
    filled := servers;
    var i := 0;
    while i < |filled|
      invariant 0 <= i <= |filled| == |servers|
      invariant forall j :: 0 <= j < i ==> filled[j] == BackfillServer(vg, servers[j])
      invariant forall j :: i <= j < |filled| ==> filled[j] == servers[j]
    {
      if filled[i].virtualGroupId == 0 {
        filled := filled[i := filled[i].(virtualGroupId := vg.id)];
      }
      if filled[i].virtualGroupName == "" {
        filled := filled[i := filled[i].(virtualGroupName := vg.name)];
      }
      i := i + 1;
    }
  }

  // ---- Phase 1: entitlement extraction ----

  /** The entitlement row for one feature of group `vg`. */
  function EntitlementRow(vg: VirtualGroup, f: EntitlementFeature): EntitlementFeatureRow {
    EntitlementFeatureRow(vg.id, vg.name, f.featureName, f.featureVersion, f.productName,
                          f.licenseType, f.totalQuantity, f.inUseQuantity, f.unassignedQuantity)
  }

  /** The features of a run of product keys, in order. */
  function KeyFeatures(keys: seq<EntitlementProductKey>): seq<EntitlementFeature> {
    if keys == [] then []
    else KeyFeatures(keys[..|keys| - 1]) + keys[|keys| - 1].entitlementFeatures
  }

  /** The features of a run of entitlements, in nested order. */
  function SummaryFeatures(ents: seq<EntitlementSummary>): seq<EntitlementFeature> {
    if ents == [] then []
    else SummaryFeatures(ents[..|ents| - 1]) + KeyFeatures(ents[|ents| - 1].entitlementProductKeys)
  }

  /** One entitlement row of `vg` per feature, in the features' order. */
  function RowsFor(vg: VirtualGroup, fs: seq<EntitlementFeature>): (rows: seq<EntitlementFeatureRow>)
    ensures |rows| == |fs|
    ensures forall n :: 0 <= n < |fs| ==> rows[n] == EntitlementRow(vg, fs[n])
  {
    seq(|fs|, n requires 0 <= n < |fs| => EntitlementRow(vg, fs[n]))
  }

  /** What `extractEntitlementFeatureMetrics` returns: the rows of each group in turn. */
  function EntitlementRows(vgs: seq<VirtualGroup>): seq<EntitlementFeatureRow> {
    if vgs == [] then []
    else EntitlementRows(vgs[..|vgs| - 1])
         + RowsFor(vgs[|vgs| - 1], SummaryFeatures(vgs[|vgs| - 1].entitlements))
  }

  lemma RowsForAppend(vg: VirtualGroup, a: seq<EntitlementFeature>, b: seq<EntitlementFeature>)
    ensures RowsFor(vg, a + b) == RowsFor(vg, a) + RowsFor(vg, b)
  {
  }

  /** The innermost loop of `extractEntitlementFeatureMetrics`: one row per feature of a product key. */
  method AppendFeatureRows(metrics: seq<EntitlementFeatureRow>, vg: VirtualGroup, fs: seq<EntitlementFeature>)
    returns (out: seq<EntitlementFeatureRow>)
    ensures out == metrics + RowsFor(vg, fs)
  {
    out := metrics;
    for l := 0 to |fs|
      invariant out == metrics + RowsFor(vg, fs[..l])
    {
      out := out + [EntitlementRow(vg, fs[l])];
      assert fs[..l + 1] == fs[..l] + [fs[l]];
      RowsForAppend(vg, fs[..l], [fs[l]]);
    }
    assert fs[..|fs|] == fs;
  }

  /** The loop over the product keys of one entitlement. */
  method AppendKeyRows(metrics: seq<EntitlementFeatureRow>, vg: VirtualGroup, keys: seq<EntitlementProductKey>)
    returns (out: seq<EntitlementFeatureRow>)
    ensures out == metrics + RowsFor(vg, KeyFeatures(keys))
  {
    out := metrics;
    for k := 0 to |keys|
      invariant out == metrics + RowsFor(vg, KeyFeatures(keys[..k]))
    {
      out := AppendFeatureRows(out, vg, keys[k].entitlementFeatures);
      assert keys[..k + 1][..k] == keys[..k];
      RowsForAppend(vg, KeyFeatures(keys[..k]), keys[k].entitlementFeatures);
    }
    assert keys[..|keys|] == keys;
  }

  /** The loop over the entitlements of one group. */
  method AppendGroupRows(metrics: seq<EntitlementFeatureRow>, vg: VirtualGroup)
    returns (out: seq<EntitlementFeatureRow>)
    ensures out == metrics + RowsFor(vg, SummaryFeatures(vg.entitlements))
  {
    var ents := vg.entitlements;
    out := metrics;
    for j := 0 to |ents|
      invariant out == metrics + RowsFor(vg, SummaryFeatures(ents[..j]))
    {
      out := AppendKeyRows(out, vg, ents[j].entitlementProductKeys);
      assert ents[..j + 1][..j] == ents[..j];
      RowsForAppend(vg, SummaryFeatures(ents[..j]), KeyFeatures(ents[j].entitlementProductKeys));
    }
    assert ents[..|ents|] == ents;
  }

  /**
   * `extractEntitlementFeatureMetrics`: for each group, entitlement, product key and feature, in
   * that nesting, one row carrying the group's id and name.
   */
  method ExtractEntitlementFeatureMetrics(vgs: seq<VirtualGroup>) returns (metrics: seq<EntitlementFeatureRow>)
    ensures metrics == EntitlementRows(vgs)
  {
    metrics := [];
    for i := 0 to |vgs|
      invariant metrics == EntitlementRows(vgs[..i])
    {
      metrics := AppendGroupRows(metrics, vgs[i]);
      assert vgs[..i + 1][..i] == vgs[..i];
    }
    assert vgs[..|vgs|] == vgs;
  }

  /** A feature is listed by a run of product keys exactly when one of the keys holds it. */
  lemma {:induction false} KeyFeaturesHold(keys: seq<EntitlementProductKey>, f: EntitlementFeature)
    ensures f in KeyFeatures(keys) <==> exists k :: 0 <= k < |keys| && f in keys[k].entitlementFeatures
  {
    if keys != [] {
      var init := keys[..|keys| - 1];
      KeyFeaturesHold(init, f);
      assert forall k :: 0 <= k < |init| ==> init[k] == keys[k];
    }
  }

  /**
   * A feature is listed by a run of entitlements exactly when one of their product keys holds it.
   */
  lemma {:induction false} SummaryFeaturesHold(ents: seq<EntitlementSummary>, f: EntitlementFeature)
    ensures f in SummaryFeatures(ents) <==>
            exists j :: 0 <= j < |ents| && f in KeyFeatures(ents[j].entitlementProductKeys)
  {
    if ents != [] {
      var init := ents[..|ents| - 1];
      SummaryFeaturesHold(init, f);
      assert forall j :: 0 <= j < |init| ==> init[j] == ents[j];
    }
  }

  /**
   * The extracted rows are exactly the rows of the groups' features: a row is extracted iff it is
   * the row, carrying that group's id and name, of some feature under some product key of some
   * entitlement of some group.
   */
  lemma {:induction false} EntitlementRowsExact(vgs: seq<VirtualGroup>, row: EntitlementFeatureRow)
    ensures row in EntitlementRows(vgs) <==>
            exists i, f :: 0 <= i < |vgs| && f in SummaryFeatures(vgs[i].entitlements)
                           && row == EntitlementRow(vgs[i], f)
  {
    if vgs != [] {
      var init, last := vgs[..|vgs| - 1], vgs[|vgs| - 1];
      EntitlementRowsExact(init, row);
      assert forall i :: 0 <= i < |init| ==> init[i] == vgs[i];
      var fs := SummaryFeatures(last.entitlements);
      if row in RowsFor(last, fs) {
        var n :| 0 <= n < |fs| && RowsFor(last, fs)[n] == row;
        assert fs[n] in fs && row == EntitlementRow(vgs[|vgs| - 1], fs[n]);
      }
      if exists f :: f in fs && row == EntitlementRow(last, f) {
        var f :| f in fs && row == EntitlementRow(last, f);
        var n :| 0 <= n < |fs| && fs[n] == f;
        assert RowsFor(last, fs)[n] == row;
      }
    }
  }

  /** Every extracted row carries the id and name of a listed group. */
  lemma EntitlementRowsCarryGroup(vgs: seq<VirtualGroup>, row: EntitlementFeatureRow)
    requires row in EntitlementRows(vgs)
    ensures exists i :: 0 <= i < |vgs| && row.virtualGroupId == vgs[i].id && row.virtualGroupName == vgs[i].name
  {
    EntitlementRowsExact(vgs, row);
  }

  /** The number of rows is the number of features under all the groups. */
  lemma {:induction false} EntitlementRowsCount(vgs: seq<VirtualGroup>)
    ensures |EntitlementRows(vgs)| == FeatureCount(vgs)
  {
    if vgs != [] {
      EntitlementRowsCount(vgs[..|vgs| - 1]);
    }
  }

  function FeatureCount(vgs: seq<VirtualGroup>): nat {
    if vgs == [] then 0
    else FeatureCount(vgs[..|vgs| - 1]) + |SummaryFeatures(vgs[|vgs| - 1].entitlements)|
  }
}
