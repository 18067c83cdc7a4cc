/**
 * The push side of internal/otel/metrics.go: the configuration defaults, the checks
 * `NewMetricsPusher` makes before building anything, and `buildObservations`, which turns a
 * snapshot and its metadata into the gauge observations one collection reports. Every
 * observation carries the organisation's name as `org_name`; each row observation adds the
 * labels of its row under that kind's keys.
 */
module OtelMetrics {
  import opened Results
  import opened Text
  import opened GoTime
  import opened ClsTypes
  import opened SnapshotCache
  import opened MetricLabels

  const DefaultPushInterval: Duration := 60 * Second
  const DefaultRefreshTimeout: Duration := 20 * Second

  datatype Config = Config(
    enabled: bool,
    endpoint: string,
    serviceName: string,
    serviceInstanceId: string,
    insecure: bool,
    pushInterval: Duration,
    refreshTimeout: Duration)

  /** `normalizeConfig`: non-positive intervals get their defaults; nothing else changes. */
  function NormalizeConfig(cfg: Config): (c: Config)
    ensures c.pushInterval == (if cfg.pushInterval <= 0 then 60 * Second else cfg.pushInterval)
    ensures c.refreshTimeout == (if cfg.refreshTimeout <= 0 then 20 * Second else cfg.refreshTimeout)
    ensures c.pushInterval > 0 && c.refreshTimeout > 0
    ensures c.(pushInterval := cfg.pushInterval, refreshTimeout := cfg.refreshTimeout) == cfg
  {
    var c := if cfg.pushInterval <= 0 then cfg.(pushInterval := DefaultPushInterval) else cfg;
    if c.refreshTimeout <= 0 then c.(refreshTimeout := DefaultRefreshTimeout) else c
  }

  /** Normalising twice changes nothing more. */
  lemma NormalizeConfigIdempotent(cfg: Config)
    ensures NormalizeConfig(NormalizeConfig(cfg)) == NormalizeConfig(cfg)
  {
  }

  datatype ConfigError = EndpointRequired | ServiceNameRequired

  /** The start of `NewMetricsPusher`: normalise, then require an endpoint, then a service name. */
  function CheckConfig(cfg: Config): Result<Config, ConfigError> {
    var c := NormalizeConfig(cfg);
    if TrimSpace(c.endpoint) == "" then Failure(EndpointRequired)
    else if TrimSpace(c.serviceName) == "" then Failure(ServiceNameRequired)
    else Success(c)
  }

  /**
   * A blank endpoint is reported whatever the service name is; a blank service name only once
   * the endpoint is present; otherwise the normalised configuration is accepted.
   */
  lemma CheckConfigSpec(cfg: Config)
    ensures CheckConfig(cfg) == Failure(EndpointRequired) <==> IsBlank(cfg.endpoint)
    ensures CheckConfig(cfg) == Failure(ServiceNameRequired) <==> !IsBlank(cfg.endpoint) && IsBlank(cfg.serviceName)
    ensures CheckConfig(cfg).Success? <==> !IsBlank(cfg.endpoint) && !IsBlank(cfg.serviceName)
    ensures CheckConfig(cfg).Success? ==> CheckConfig(cfg).value == NormalizeConfig(cfg)
  {
    TrimSpaceSpec(cfg.endpoint);
    TrimSpaceSpec(cfg.serviceName);
  }

  // ---- Observations ----

  datatype Attribute = Attribute(key: string, value: string)

  datatype Observation = Observation(name: string, value: real, attrs: seq<Attribute>)

  /** `org_name` first, then each key with its label. */
  function Attrs(orgName: string, keys: seq<string>, labels: seq<string>): (attrs: seq<Attribute>)
    requires |keys| == |labels|
  {
    [Attribute("org_name", orgName)] + seq(|keys|, k requires 0 <= k < |keys| => Attribute(keys[k], labels[k]))
  }

  function EntitlementObservation(orgName: string, item: EntitlementFeatureRow): Observation {
    Observation(MetricEntitlementTotal, item.totalQuantity, Attrs(orgName, EntitlementKeys, EntitlementLabels(item)))
  }

  function CapacityObservation(orgName: string, item: ServerFeatureCapacityRow): Observation {
    Observation(MetricServerFeatureTotal, item.totalQuantity, Attrs(orgName, ServerFeatureKeys, CapacityLabels(item)))
  }

  function ActiveObservation(orgName: string, item: ServerFeatureActiveLeaseRow): Observation {
    Observation(MetricServerFeatureActive, item.activeLeases, Attrs(orgName, ServerFeatureKeys, ActiveLabels(item)))
  }

  function InfoObservation(orgName: string, item: ServerUsageRow): Observation {
    Observation(MetricServerInfo, 1.0, Attrs(orgName, ServerInfoKeys, InfoLabels(item)))
  }

  /** The three scrape observations: up, duration, and the timestamp in Unix seconds. */
  function ScrapeObservations(orgName: string, meta: Meta): seq<Observation> {
    var org := [Attribute("org_name", orgName)];
    [Observation(MetricUp, meta.up, org), Observation(MetricScrapeDuration, meta.durationSeconds, org),
     Observation(MetricScrapeTimestamp, Unix(meta.timestamp) as real, org)]
  }

  function EntitlementObservations(orgName: string, rows: seq<EntitlementFeatureRow>): seq<Observation> {
    seq(|rows|, i requires 0 <= i < |rows| => EntitlementObservation(orgName, rows[i]))
  }

  function CapacityObservations(orgName: string, rows: seq<ServerFeatureCapacityRow>): seq<Observation> {
    seq(|rows|, i requires 0 <= i < |rows| => CapacityObservation(orgName, rows[i]))
  }

  function ActiveObservations(orgName: string, rows: seq<ServerFeatureActiveLeaseRow>): seq<Observation> {
    seq(|rows|, i requires 0 <= i < |rows| => ActiveObservation(orgName, rows[i]))
  }

  function InfoObservations(orgName: string, rows: seq<ServerUsageRow>): seq<Observation> {
    seq(|rows|, i requires 0 <= i < |rows| => InfoObservation(orgName, rows[i]))
  }

  /** What `buildObservations` returns: the scrape observations, then one per row, block by block. */
  function Observations(orgName: string, snap: Snapshot, meta: Meta): seq<Observation> {
    ScrapeObservations(orgName, meta)
    + EntitlementObservations(orgName, snap.entitlementFeatures)
    + CapacityObservations(orgName, snap.serverFeatureCapacity)
    + ActiveObservations(orgName, snap.serverFeatureActiveLeases)
    + InfoObservations(orgName, snap.serverUsage)
  }

  /** `buildObservations`: the scrape observations, then four loops appending one observation per row. */
  method BuildObservations(orgName: string, snap: Snapshot, meta: Meta) returns (obs: seq<Observation>)
    ensures obs == Observations(orgName, snap, meta)
  {
    obs := ScrapeObservations(orgName, meta);
    ghost var prefix := obs;
    var ents := snap.entitlementFeatures;
    for i := 0 to |ents|
      invariant obs == prefix + EntitlementObservations(orgName, ents[..i])
    {
      assert EntitlementObservations(orgName, ents[..i + 1])
             == EntitlementObservations(orgName, ents[..i]) + [EntitlementObservation(orgName, ents[i])];
      obs := obs + [EntitlementObservation(orgName, ents[i])];
    }
    assert ents[..|ents|] == ents;
    prefix := obs;
    var caps := snap.serverFeatureCapacity;
    for i := 0 to |caps|
      invariant obs == prefix + CapacityObservations(orgName, caps[..i])
    {
      assert CapacityObservations(orgName, caps[..i + 1])
             == CapacityObservations(orgName, caps[..i]) + [CapacityObservation(orgName, caps[i])];
      obs := obs + [CapacityObservation(orgName, caps[i])];
    }
    assert caps[..|caps|] == caps;
    prefix := obs;
    var actives := snap.serverFeatureActiveLeases;
    for i := 0 to |actives|
      invariant obs == prefix + ActiveObservations(orgName, actives[..i])
    {
      assert ActiveObservations(orgName, actives[..i + 1])
             == ActiveObservations(orgName, actives[..i]) + [ActiveObservation(orgName, actives[i])];
      obs := obs + [ActiveObservation(orgName, actives[i])];
    }
    assert actives[..|actives|] == actives;
    prefix := obs;
    var usage := snap.serverUsage;
    for i := 0 to |usage|
      invariant obs == prefix + InfoObservations(orgName, usage[..i])
    {
      assert InfoObservations(orgName, usage[..i + 1])
             == InfoObservations(orgName, usage[..i]) + [InfoObservation(orgName, usage[i])];
      obs := obs + [InfoObservation(orgName, usage[i])];
    }
    assert usage[..|usage|] == usage;
  }

  // ---- What the observations promise ----

  /**
   * One observation per scrape metric and per exported row: the pool rows and the per-server
   * active-lease rows are not exported.
   */
  lemma ObservationCount(orgName: string, snap: Snapshot, meta: Meta)
    ensures |Observations(orgName, snap, meta)|
            == 3 + |snap.entitlementFeatures| + |snap.serverFeatureCapacity|
               + |snap.serverFeatureActiveLeases| + |snap.serverUsage|
  {
  }

  /** The pool usage rows and the per-server active-lease rows do not affect the observations. */
  lemma ObservationsIgnoreUnexported(orgName: string, snap: Snapshot, meta: Meta,
                                     pools: seq<PoolUsageRow>, servers: seq<ServerActiveLeaseRow>)
    ensures Observations(orgName, snap.(poolUsage := pools, serverActiveLeases := servers), meta)
            == Observations(orgName, snap, meta)
  {
  }

  /**
   * Where each observation sits: the scrape observations first, with the meta's values; then the
   * entitlement, capacity, active-lease and server-info blocks, in that order, each in the order
   * of its rows.
   */
  lemma ObservationLayout(orgName: string, snap: Snapshot, meta: Meta)
    ensures var obs, e, c, a := Observations(orgName, snap, meta), |snap.entitlementFeatures|,
                                |snap.serverFeatureCapacity|, |snap.serverFeatureActiveLeases|;
            && obs[0].name == MetricUp && obs[0].value == meta.up
            && obs[1].name == MetricScrapeDuration && obs[1].value == meta.durationSeconds
            && obs[2].name == MetricScrapeTimestamp && obs[2].value == Unix(meta.timestamp) as real
            && (forall i :: 0 <= i < e ==> obs[3 + i] == EntitlementObservation(orgName, snap.entitlementFeatures[i]))
            && (forall i :: 0 <= i < c ==> obs[3 + e + i] == CapacityObservation(orgName, snap.serverFeatureCapacity[i]))
            && (forall i :: 0 <= i < a ==>
                  obs[3 + e + c + i] == ActiveObservation(orgName, snap.serverFeatureActiveLeases[i]))
            && (forall i :: 0 <= i < |snap.serverUsage| ==>
                  obs[3 + e + c + a + i] == InfoObservation(orgName, snap.serverUsage[i]))
  {
    EntitlementBlock(orgName, snap, meta);
    CapacityBlock(orgName, snap, meta);
    ActiveBlock(orgName, snap, meta);
    InfoBlock(orgName, snap, meta);
  }

  /*
   * The block lemmas index the concatenation one `+` at a time, from the outermost inwards, so
   * that no step needs sequence extensionality.
   */
  lemma EntitlementBlock(orgName: string, snap: Snapshot, meta: Meta)
    ensures var obs := Observations(orgName, snap, meta);
            forall i :: 0 <= i < |snap.entitlementFeatures| ==>
              obs[3 + i] == EntitlementObservation(orgName, snap.entitlementFeatures[i])
  {
    var head := ScrapeObservations(orgName, meta);
    var ents := EntitlementObservations(orgName, snap.entitlementFeatures);
    var he := head + ents;
    var hec := he + CapacityObservations(orgName, snap.serverFeatureCapacity);
    var heca := hec + ActiveObservations(orgName, snap.serverFeatureActiveLeases);
    var obs := heca + InfoObservations(orgName, snap.serverUsage);
    assert obs == Observations(orgName, snap, meta);
    forall i | 0 <= i < |ents|
      ensures obs[3 + i] == EntitlementObservation(orgName, snap.entitlementFeatures[i])
    {
      assert obs[3 + i] == heca[3 + i] == hec[3 + i] == he[3 + i] == ents[i];
    }
  }

  lemma CapacityBlock(orgName: string, snap: Snapshot, meta: Meta)
    ensures var obs, e := Observations(orgName, snap, meta), |snap.entitlementFeatures|;
            forall i :: 0 <= i < |snap.serverFeatureCapacity| ==>
              obs[3 + e + i] == CapacityObservation(orgName, snap.serverFeatureCapacity[i])
  {
    var he := ScrapeObservations(orgName, meta) + EntitlementObservations(orgName, snap.entitlementFeatures);
    var caps := CapacityObservations(orgName, snap.serverFeatureCapacity);
    var hec := he + caps;
    var heca := hec + ActiveObservations(orgName, snap.serverFeatureActiveLeases);
    var obs := heca + InfoObservations(orgName, snap.serverUsage);
    assert obs == Observations(orgName, snap, meta);
    assert |he| == 3 + |snap.entitlementFeatures|;
    forall i | 0 <= i < |caps|
      ensures obs[|he| + i] == CapacityObservation(orgName, snap.serverFeatureCapacity[i])
    {
      assert obs[|he| + i] == heca[|he| + i] == hec[|he| + i] == caps[i];
    }
  }

  lemma ActiveBlock(orgName: string, snap: Snapshot, meta: Meta)
    ensures var obs, e, c := Observations(orgName, snap, meta), |snap.entitlementFeatures|, |snap.serverFeatureCapacity|;
            forall i :: 0 <= i < |snap.serverFeatureActiveLeases| ==>
              obs[3 + e + c + i] == ActiveObservation(orgName, snap.serverFeatureActiveLeases[i])
  {
    var hec := ScrapeObservations(orgName, meta) + EntitlementObservations(orgName, snap.entitlementFeatures)
               + CapacityObservations(orgName, snap.serverFeatureCapacity);
    var acts := ActiveObservations(orgName, snap.serverFeatureActiveLeases);
    var heca := hec + acts;
    var obs := heca + InfoObservations(orgName, snap.serverUsage);
    assert obs == Observations(orgName, snap, meta);
    assert |hec| == 3 + |snap.entitlementFeatures| + |snap.serverFeatureCapacity|;
    forall i | 0 <= i < |acts|
      ensures obs[|hec| + i] == ActiveObservation(orgName, snap.serverFeatureActiveLeases[i])
    {
      assert obs[|hec| + i] == heca[|hec| + i] == acts[i];
    }
  }

  lemma InfoBlock(orgName: string, snap: Snapshot, meta: Meta)
    ensures var obs, e, c, a := Observations(orgName, snap, meta), |snap.entitlementFeatures|,
                                |snap.serverFeatureCapacity|, |snap.serverFeatureActiveLeases|;
            forall i :: 0 <= i < |snap.serverUsage| ==> obs[3 + e + c + a + i] == InfoObservation(orgName, snap.serverUsage[i])
  {
    var heca := ScrapeObservations(orgName, meta) + EntitlementObservations(orgName, snap.entitlementFeatures)
                + CapacityObservations(orgName, snap.serverFeatureCapacity)
                + ActiveObservations(orgName, snap.serverFeatureActiveLeases);
    var infos := InfoObservations(orgName, snap.serverUsage);
    var obs := heca + infos;
    assert obs == Observations(orgName, snap, meta);
    assert |heca| == 3 + |snap.entitlementFeatures| + |snap.serverFeatureCapacity| + |snap.serverFeatureActiveLeases|;
    forall i | 0 <= i < |infos|
      ensures obs[|heca| + i] == InfoObservation(orgName, snap.serverUsage[i])
    {
      assert obs[|heca| + i] == infos[i];
    }
  }

  /** The first attribute is `org_name` with the organisation's name, and every other one has a non-empty value. */
  ghost predicate AttrsOk(orgName: string, o: Observation) {
    && |o.attrs| >= 1
    && o.attrs[0] == Attribute("org_name", orgName)
    && (forall k :: 1 <= k < |o.attrs| ==> o.attrs[k].value != "")
  }

  /** A row observation pairs its kind's keys with the row's rendered labels, none of them empty. */
  lemma RenderedAttrsOk(orgName: string, keys: seq<string>, id: int, fields: seq<string>)
    requires |keys| == |fields| + 1
    ensures var attrs := Attrs(orgName, keys, Render(id, fields));
            && |attrs| == |keys| + 1
            && attrs[0] == Attribute("org_name", orgName)
            && (forall k :: 1 <= k < |attrs| ==> attrs[k].key == keys[k - 1] && attrs[k].value != "")
  {
    var labels := Render(id, fields);
    RenderSpec(id, fields);
    var attrs := Attrs(orgName, keys, labels);
    forall k | 1 <= k < |attrs|
      ensures attrs[k].key == keys[k - 1] && attrs[k].value != ""
    {
      assert attrs[k] == Attribute(keys[k - 1], labels[k - 1]);
    }
  }

  /** Each row observation's attributes are well formed. */
  lemma EntitlementObservationOk(orgName: string, item: EntitlementFeatureRow)
    ensures AttrsOk(orgName, EntitlementObservation(orgName, item))
  {
    RenderedAttrsOk(orgName, EntitlementKeys, item.virtualGroupId, EntitlementFields(item));
  }

  lemma CapacityObservationOk(orgName: string, item: ServerFeatureCapacityRow)
    ensures AttrsOk(orgName, CapacityObservation(orgName, item))
  {
    RenderedAttrsOk(orgName, ServerFeatureKeys, item.virtualGroupId, CapacityFields(item));
  }

  lemma ActiveObservationOk(orgName: string, item: ServerFeatureActiveLeaseRow)
    ensures AttrsOk(orgName, ActiveObservation(orgName, item))
  {
    RenderedAttrsOk(orgName, ServerFeatureKeys, item.virtualGroupId, ActiveFields(item));
  }

  lemma InfoObservationOk(orgName: string, item: ServerUsageRow)
    ensures AttrsOk(orgName, InfoObservation(orgName, item))
  {
    RenderedAttrsOk(orgName, ServerInfoKeys, item.virtualGroupId, InfoFields(item));
  }

  /**
   * Every observation's first attribute is `org_name` with the organisation's name and its other
   * attributes have non-empty values; exactly the first three are scrape observations, and those
   * carry nothing but `org_name`; a server-info observation always has the value 1.
   */
  lemma ObservationAttributes(orgName: string, snap: Snapshot, meta: Meta, n: int)
    requires 0 <= n < |Observations(orgName, snap, meta)|
    ensures var o := Observations(orgName, snap, meta)[n];
            && AttrsOk(orgName, o)
            && (IsScrapeMetric(o.name) <==> n < 3)
            && (IsScrapeMetric(o.name) ==> |o.attrs| == 1)
            && (o.name == MetricServerInfo ==> o.value == 1.0)
  {
    var head := ScrapeObservations(orgName, meta);
    var ents := EntitlementObservations(orgName, snap.entitlementFeatures);
    var caps := CapacityObservations(orgName, snap.serverFeatureCapacity);
    var acts := ActiveObservations(orgName, snap.serverFeatureActiveLeases);
    var infos := InfoObservations(orgName, snap.serverUsage);
    var he := head + ents;
    var hec := he + caps;
    var heca := hec + acts;
    var obs := heca + infos;
    assert obs == Observations(orgName, snap, meta);
    if n < |heca| {
      assert obs[n] == heca[n];
      if n < |hec| {
        assert heca[n] == hec[n];
        if n < |he| {
          assert hec[n] == he[n];
          if n < 3 {
            assert he[n] == head[n];
          } else {
            assert he[n] == ents[n - 3];
            EntitlementObservationOk(orgName, snap.entitlementFeatures[n - 3]);
          }
        } else {
          assert hec[n] == caps[n - |he|];
          CapacityObservationOk(orgName, snap.serverFeatureCapacity[n - |he|]);
        }
      } else {
        assert heca[n] == acts[n - |hec|];
        ActiveObservationOk(orgName, snap.serverFeatureActiveLeases[n - |hec|]);
      }
    } else {
      assert obs[n] == infos[n - |heca|];
      InfoObservationOk(orgName, snap.serverUsage[n - |heca|]);
    }
  }
}
