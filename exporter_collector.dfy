/**
 * The pull side, internal/exporter/collector.go. One `Collect` asks the snapshot service for a
 * snapshot and sends one gauge sample per metric on the channel, modelled here as the sequence
 * of samples it sends. When `Get` fails only the scrape samples go out, taken from the service's
 * last meta; otherwise the scrape samples come from the returned meta and are followed by one
 * sample per entitlement, capacity, active-lease and server-usage row, in that order.
 */
module Exporter {
  import opened Results
  import opened GoTime
  import opened ClsTypes
  import opened SnapshotCache
  import opened Decimal
  import opened MetricLabels

  /** A sample: the metric's name, its value and its variable label values, in the metric's key order. */
  datatype Sample = Sample(name: string, value: real, labels: seq<string>)

  function EntitlementSample(item: EntitlementFeatureRow): Sample {
    Sample(MetricEntitlementTotal, item.totalQuantity, EntitlementLabels(item))
  }

  function CapacitySample(item: ServerFeatureCapacityRow): Sample {
    Sample(MetricServerFeatureTotal, item.totalQuantity, CapacityLabels(item))
  }

  function ActiveSample(item: ServerFeatureActiveLeaseRow): Sample {
    Sample(MetricServerFeatureActive, item.activeLeases, ActiveLabels(item))
  }

  function InfoSample(item: ServerUsageRow): Sample {
    Sample(MetricServerInfo, 1.0, InfoLabels(item))
  }

  /** The samples of the error branch: down, the last duration, and the last timestamp unless it is zero. */
  function FailureSamples(lastMeta: Meta): seq<Sample> {
    [Sample(MetricUp, 0.0, []), Sample(MetricScrapeDuration, lastMeta.durationSeconds, [])]
    + (if IsZero(lastMeta.timestamp) then [] else [Sample(MetricScrapeTimestamp, Unix(lastMeta.timestamp) as real, [])])
  }

  function ScrapeSamples(meta: Meta): seq<Sample> {
    [Sample(MetricUp, meta.up, []), Sample(MetricScrapeDuration, meta.durationSeconds, []),
     Sample(MetricScrapeTimestamp, Unix(meta.timestamp) as real, [])]
  }

  function EntitlementSamples(rows: seq<EntitlementFeatureRow>): seq<Sample> {
    seq(|rows|, i requires 0 <= i < |rows| => EntitlementSample(rows[i]))
  }

  function CapacitySamples(rows: seq<ServerFeatureCapacityRow>): seq<Sample> {
    seq(|rows|, i requires 0 <= i < |rows| => CapacitySample(rows[i]))
  }

  function ActiveSamples(rows: seq<ServerFeatureActiveLeaseRow>): seq<Sample> {
    seq(|rows|, i requires 0 <= i < |rows| => ActiveSample(rows[i]))
  }

  function InfoSamples(rows: seq<ServerUsageRow>): seq<Sample> {
    seq(|rows|, i requires 0 <= i < |rows| => InfoSample(rows[i]))
  }

  /** The samples of a successful `Get`. */
  function SnapshotSamples(snap: Snapshot, meta: Meta): seq<Sample> {
    ScrapeSamples(meta)
    + EntitlementSamples(snap.entitlementFeatures)
    + CapacitySamples(snap.serverFeatureCapacity)
    + ActiveSamples(snap.serverFeatureActiveLeases)
    + InfoSamples(snap.serverUsage)
  }

  /** What `Collect` sends, given what `Get` returned and the service's meta right after it. */
  function Collected(reply: Result<Served, FetchError>, lastMeta: Meta): seq<Sample> {
    match reply
    case Failure(_) => FailureSamples(lastMeta)
    case Success(s) => SnapshotSamples(s.snapshot, s.meta)
  }

  /** The four row loops of the success branch, appending to the samples already sent. */
  method SendRows(snap: Snapshot, sent: seq<Sample>) returns (out: seq<Sample>)
    ensures out == sent + EntitlementSamples(snap.entitlementFeatures) + CapacitySamples(snap.serverFeatureCapacity)
                   + ActiveSamples(snap.serverFeatureActiveLeases) + InfoSamples(snap.serverUsage)
  {
    out := sent;
    ghost var prefix := out;
    var ents := snap.entitlementFeatures;
    for i := 0 to |ents|
      invariant out == prefix + EntitlementSamples(ents[..i])
    {
      assert EntitlementSamples(ents[..i + 1]) == EntitlementSamples(ents[..i]) + [EntitlementSample(ents[i])];
      out := out + [Sample(MetricEntitlementTotal, ents[i].totalQuantity, EntitlementLabels(ents[i]))];
    }
    assert ents[..|ents|] == ents;
    prefix := out;
    var caps := snap.serverFeatureCapacity;
    for i := 0 to |caps|
      invariant out == prefix + CapacitySamples(caps[..i])
    {
      assert CapacitySamples(caps[..i + 1]) == CapacitySamples(caps[..i]) + [CapacitySample(caps[i])];
      out := out + [Sample(MetricServerFeatureTotal, caps[i].totalQuantity, CapacityLabels(caps[i]))];
    }
    assert caps[..|caps|] == caps;
    prefix := out;
    var actives := snap.serverFeatureActiveLeases;
    for i := 0 to |actives|
      invariant out == prefix + ActiveSamples(actives[..i])
    {
      assert ActiveSamples(actives[..i + 1]) == ActiveSamples(actives[..i]) + [ActiveSample(actives[i])];
      out := out + [Sample(MetricServerFeatureActive, actives[i].activeLeases, ActiveLabels(actives[i]))];
    }
    assert actives[..|actives|] == actives;
    prefix := out;
    var usage := snap.serverUsage;
    for i := 0 to |usage|
      invariant out == prefix + InfoSamples(usage[..i])
    {
      assert InfoSamples(usage[..i + 1]) == InfoSamples(usage[..i]) + [InfoSample(usage[i])];
      out := out + [Sample(MetricServerInfo, 1.0, InfoLabels(usage[i]))];
    }
    assert usage[..|usage|] == usage;
  }

  /**
   * `Collect` at time `now`: `Get` from the service (running the fetch `a` on a miss), then the
   * error branch with the service's meta, or the scrape samples and the row loops.
   */
  method Collect(svc: Service, now: Time, a: Attempt) returns (out: seq<Sample>)
    modifies svc
    ensures svc.State() == GetStep(old(svc.State()), svc.cacheTtl, now, a).0
    ensures out == Collected(GetStep(old(svc.State()), svc.cacheTtl, now, a).1, svc.meta)
  {
    var reply := svc.Get(now, a);
    if reply.Failure? {
      var lastMeta := svc.CurrentMeta();
      out := [Sample(MetricUp, 0.0, []), Sample(MetricScrapeDuration, lastMeta.durationSeconds, [])];
      if !IsZero(lastMeta.timestamp) {
        out := out + [Sample(MetricScrapeTimestamp, Unix(lastMeta.timestamp) as real, [])];
      }
      return;
    }
    var meta := reply.value.meta;
    out := [Sample(MetricUp, meta.up, []), Sample(MetricScrapeDuration, meta.durationSeconds, []),
            Sample(MetricScrapeTimestamp, Unix(meta.timestamp) as real, [])];
    out := SendRows(reply.value.snapshot, out);
  }

  // ---- What a collection promises ----

  /**
   * The error branch sends only scrape samples: down first, then the last duration, then the
   * last timestamp exactly when it is not zero; no row sample goes out.
   */
  lemma FailureSendsScrapeOnly(err: FetchError, lastMeta: Meta)
    ensures var out := Collected(Failure(err), lastMeta);
            && |out| == (if IsZero(lastMeta.timestamp) then 2 else 3)
            && out[0] == Sample(MetricUp, 0.0, [])
            && out[1] == Sample(MetricScrapeDuration, lastMeta.durationSeconds, [])
            && (|out| == 3 ==> out[2] == Sample(MetricScrapeTimestamp, Unix(lastMeta.timestamp) as real, []))
            && (forall k :: 0 <= k < |out| ==> IsScrapeMetric(out[k].name) && out[k].labels == [])
  {
  }

  /**
   * Collecting from a service with nothing cached whose fetch fails reports it down, with that
   * fetch's duration and, unless the clock read zero, the time it completed.
   */
  lemma FailedFirstCollect(st: CacheState, ttl: Duration, now: Time, a: Attempt)
    requires st.snapshot.None? && a.outcome.Failure?
    ensures var (st', reply) := GetStep(st, ttl, now, a);
            && reply.Failure?
            && Collected(reply, st'.meta)
               == [Sample(MetricUp, 0.0, []), Sample(MetricScrapeDuration, a.durationSeconds, [])]
                  + (if a.completedAt == 0 then [] else [Sample(MetricScrapeTimestamp, Unix(a.completedAt) as real, [])])
  {
  }

  /**
   * The success branch sends three scrape samples from the returned meta, then the entitlement,
   * capacity, active-lease and server-info blocks, in that order, each in the order of its rows.
   */
  lemma SuccessLayout(snap: Snapshot, meta: Meta)
    ensures var out := SnapshotSamples(snap, meta);
            var e, c, a := |snap.entitlementFeatures|, |snap.serverFeatureCapacity|, |snap.serverFeatureActiveLeases|;
            && |out| == 3 + e + c + a + |snap.serverUsage|
            && out[0] == Sample(MetricUp, meta.up, [])
            && out[1] == Sample(MetricScrapeDuration, meta.durationSeconds, [])
            && out[2] == Sample(MetricScrapeTimestamp, Unix(meta.timestamp) as real, [])
            && (forall i :: 0 <= i < e ==> out[3 + i] == EntitlementSample(snap.entitlementFeatures[i]))
            && (forall i :: 0 <= i < c ==> out[3 + e + i] == CapacitySample(snap.serverFeatureCapacity[i]))
            && (forall i :: 0 <= i < a ==> out[3 + e + c + i] == ActiveSample(snap.serverFeatureActiveLeases[i]))
            && (forall i :: 0 <= i < |snap.serverUsage| ==>
                  out[3 + e + c + a + i] == InfoSample(snap.serverUsage[i]) && out[3 + e + c + a + i].value == 1.0)
  {
    EntitlementBlock(snap, meta);
    CapacityBlock(snap, meta);
    ActiveBlock(snap, meta);
    InfoBlock(snap, meta);
  }

  /*
   * The block lemmas index the concatenation one `+` at a time, from the outermost inwards, so
   * that no step needs sequence extensionality.
   */
  lemma EntitlementBlock(snap: Snapshot, meta: Meta)
    ensures forall i :: 0 <= i < |snap.entitlementFeatures| ==>
              SnapshotSamples(snap, meta)[3 + i] == EntitlementSample(snap.entitlementFeatures[i])
  {
    var ents := EntitlementSamples(snap.entitlementFeatures);
    var he := ScrapeSamples(meta) + ents;
    var hec := he + CapacitySamples(snap.serverFeatureCapacity);
    var heca := hec + ActiveSamples(snap.serverFeatureActiveLeases);
    var out := heca + InfoSamples(snap.serverUsage);
    assert out == SnapshotSamples(snap, meta);
    forall i | 0 <= i < |ents|
      ensures out[3 + i] == EntitlementSample(snap.entitlementFeatures[i])
    {
      assert out[3 + i] == heca[3 + i] == hec[3 + i] == he[3 + i] == ents[i];
    }
  }

  lemma CapacityBlock(snap: Snapshot, meta: Meta)
    ensures forall i :: 0 <= i < |snap.serverFeatureCapacity| ==>
              SnapshotSamples(snap, meta)[3 + |snap.entitlementFeatures| + i] == CapacitySample(snap.serverFeatureCapacity[i])
  {
    var he := ScrapeSamples(meta) + EntitlementSamples(snap.entitlementFeatures);
    var caps := CapacitySamples(snap.serverFeatureCapacity);
    var hec := he + caps;
    var heca := hec + ActiveSamples(snap.serverFeatureActiveLeases);
    var out := heca + InfoSamples(snap.serverUsage);
    assert out == SnapshotSamples(snap, meta);
    assert |he| == 3 + |snap.entitlementFeatures|;
    forall i | 0 <= i < |caps|
      ensures out[|he| + i] == CapacitySample(snap.serverFeatureCapacity[i])
    {
      assert out[|he| + i] == heca[|he| + i] == hec[|he| + i] == caps[i];
    }
  }

  lemma ActiveBlock(snap: Snapshot, meta: Meta)
    ensures var e, c := |snap.entitlementFeatures|, |snap.serverFeatureCapacity|;
            forall i :: 0 <= i < |snap.serverFeatureActiveLeases| ==>
              SnapshotSamples(snap, meta)[3 + e + c + i] == ActiveSample(snap.serverFeatureActiveLeases[i])
  {
    var hec := ScrapeSamples(meta) + EntitlementSamples(snap.entitlementFeatures)
               + CapacitySamples(snap.serverFeatureCapacity);
    var acts := ActiveSamples(snap.serverFeatureActiveLeases);
    var heca := hec + acts;
    var out := heca + InfoSamples(snap.serverUsage);
    assert out == SnapshotSamples(snap, meta);
    assert |hec| == 3 + |snap.entitlementFeatures| + |snap.serverFeatureCapacity|;
    forall i | 0 <= i < |acts|
      ensures out[|hec| + i] == ActiveSample(snap.serverFeatureActiveLeases[i])
    {
      assert out[|hec| + i] == heca[|hec| + i] == acts[i];
    }
  }

  lemma InfoBlock(snap: Snapshot, meta: Meta)
    ensures var e, c, a := |snap.entitlementFeatures|, |snap.serverFeatureCapacity|, |snap.serverFeatureActiveLeases|;
            forall i :: 0 <= i < |snap.serverUsage| ==>
              SnapshotSamples(snap, meta)[3 + e + c + a + i] == InfoSample(snap.serverUsage[i])
  {
    var heca := ScrapeSamples(meta) + EntitlementSamples(snap.entitlementFeatures)
                + CapacitySamples(snap.serverFeatureCapacity) + ActiveSamples(snap.serverFeatureActiveLeases);
    var infos := InfoSamples(snap.serverUsage);
    var out := heca + infos;
    assert out == SnapshotSamples(snap, meta);
    assert |heca| == 3 + |snap.entitlementFeatures| + |snap.serverFeatureCapacity| + |snap.serverFeatureActiveLeases|;
    forall i | 0 <= i < |infos|
      ensures out[|heca| + i] == InfoSample(snap.serverUsage[i])
    {
      assert out[|heca| + i] == infos[i];
    }
  }

  /** A rendered label list is non-empty, starts with a decimal id and holds no empty label. */
  lemma RenderedLabelsOk(id: int, fields: seq<string>)
    ensures var labels := Render(id, fields);
            && |labels| >= 1 && ParseInt(labels[0]).Some?
            && forall k :: 0 <= k < |labels| ==> labels[k] != ""
  {
    RenderSpec(id, fields);
  }

  /**
   * In the success branch exactly the first three samples are scrape samples, with no labels;
   * every row sample has labels, the first being its group id in decimal, and none of them empty.
   */
  lemma SuccessLabels(snap: Snapshot, meta: Meta, n: int)
    requires 0 <= n < |SnapshotSamples(snap, meta)|
    ensures var o := SnapshotSamples(snap, meta)[n];
            && (IsScrapeMetric(o.name) <==> n < 3)
            && (n < 3 ==> o.labels == [])
            && (n >= 3 ==> |o.labels| >= 1 && ParseInt(o.labels[0]).Some?
                           && forall k :: 0 <= k < |o.labels| ==> o.labels[k] != "")
  {
    var head := ScrapeSamples(meta);
    var ents := EntitlementSamples(snap.entitlementFeatures);
    var caps := CapacitySamples(snap.serverFeatureCapacity);
    var acts := ActiveSamples(snap.serverFeatureActiveLeases);
    var infos := InfoSamples(snap.serverUsage);
    var he := head + ents;
    var hec := he + caps;
    var heca := hec + acts;
    var out := heca + infos;
    assert out == SnapshotSamples(snap, meta);
    if n < |heca| {
      assert out[n] == heca[n];
      if n < |hec| {
        assert heca[n] == hec[n];
        if n < |he| {
          assert hec[n] == he[n];
          if n < 3 {
            assert he[n] == head[n];
          } else {
            var item := snap.entitlementFeatures[n - 3];
            assert he[n] == ents[n - 3];
            RenderedLabelsOk(item.virtualGroupId, EntitlementFields(item));
          }
        } else {
          var item := snap.serverFeatureCapacity[n - |he|];
          assert hec[n] == caps[n - |he|];
          RenderedLabelsOk(item.virtualGroupId, CapacityFields(item));
        }
      } else {
        var item := snap.serverFeatureActiveLeases[n - |hec|];
        assert heca[n] == acts[n - |hec|];
        RenderedLabelsOk(item.virtualGroupId, ActiveFields(item));
      }
    } else {
      var item := snap.serverUsage[n - |heca|];
      assert out[n] == infos[n - |heca|];
      RenderedLabelsOk(item.virtualGroupId, InfoFields(item));
    }
  }
}
