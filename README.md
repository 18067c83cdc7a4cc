# nvidia-license-server-exporter, modelled in Dafny

This project models the core of the NVIDIA license-server exporter and proves properties about it. The exporter reads an organisation's license state from the NVIDIA Cloud License Service (CLS). It aggregates that state into a snapshot, caches the snapshot, and reports it two ways: as Prometheus gauges when scraped (pull), and as OpenTelemetry observations on a timer (push).

The model follows the program's packages, one file per concern:

| file | module | models |
|---|---|---|
| `results.dfy` | `Results` | `Option` and `Result` |
| `text.dfy` | `Text` | Go's `unicode.IsSpace`, `strings.TrimSpace`, `HasPrefix`, `HasSuffix`, `TrimSuffix` |
| `decimal.dfy` | `Decimal` | `strconv.Itoa` and a decimal reader for it |
| `gotime.dfy` | `GoTime` | `time.Time` and `time.Duration` as integer nanoseconds; `IsZero`, `Unix`, `Sub` |
| `sums.dfy` | `Sums` | sums over maps and key lists (the "sum of the totals" the proofs need) |
| `cls_types.dfy` | `ClsTypes` | the CLS payload records, the snapshot rows, the fetch errors, and `Upstream`: the four listings as inputs |
| `cls_client.dfy` | `ClsClient` | `NewClient`, `maxFloat64`, `firstNonEmptyNonBlank`, lease-count normalisation, server back-fill, `extractEntitlementFeatureMetrics` |
| `cls_leases.dfy` | `ActiveLeases` | `fetchActiveLeaseUsage`: group indexes, server resolution, lease de-duplication, the three totals, the result rows |
| `cls_pools.dfy` | `ServerPools` | the pool phase of `FetchSnapshot`: capacity rows, pool rows, per-server usage rows with the active-lease override |
| `cls_fetch.dfy` | `Fetch` | the server-listing phase and `FetchSnapshot` as a whole |
| `snapshot_service.dfy` | `SnapshotCache` | the `Service` cache as a class: `NewService`, `Get`, `Refresh`, `Latest`, `Meta` |
| `labels.dfy` | `MetricLabels` | metric names, `safeLabel` (defined identically in both reporters), label lists per row kind |
| `otel_metrics.dfy` | `OtelMetrics` | `normalizeConfig`, the checks at the top of `NewMetricsPusher`, `buildObservations` |
| `exporter_collector.dfy` | `Exporter` | `Collect`, as the sequence of samples it sends |
| `startup.dfy` | `Startup` | `getenv`, the `*FromEnv` helpers, `hostnameOrUnknown`, `firstNonEmpty`, `defaultListenAddress` |

Modelling choices:
- **Quantities.** Go's `float64` quantities are Dafny `real`s. The code only adds, subtracts, clamps and compares them.
- **Time.** A time is integer nanoseconds since Go's zero instant. The zero `time.Time{}` is then 0, and `Unix()` is floor division minus the epoch offset.
- **Upstream listings.** The four listings (virtual groups; servers per group; active-lease clients per group and service instance; pools per group and server) are an input value `Upstream`. Each listing is a `Result`, so a failure can be stated.
- **Phase order.** Each fan-out phase of `FetchSnapshot` runs sequentially in a fixed order, and the first failure in that order is the phase's error. Each Go map iteration gets a fixed order:
  - groups in the order their ids first occur;
  - service instances in the order they first occur among a group's servers;
  - feature keys in the order they were first counted.
- **Build methods.** A loop that accumulates state in the source is a `method` with loop invariants. It is proved equal to a specification function, and the properties are lemmas about that function.
- **The cache.** The cache is a class whose fields `Refresh` overwrites. The clock reading and the fetch outcome (`Attempt`) are parameters.

## Model

| member | source | states |
|---|---|---|
| ClsClient.NewClient | internal/cls/client.go:43-75 | Fails with `ApiKeyRequired` (the source's "api key is required") when the API key is blank, checked first, then with `OrgNameRequired` ("org name is required") when the org name is blank, and succeeds exactly when neither is blank. On success it keeps the trimmed key, org name and instance id. The base URL is the trimmed configured one, or the default when that is blank, with one trailing `/` removed. The HTTP client is the given one or a 15 s default. Parallelism is positive: the configured value, or 8 when that is not positive. |
| ClsClient.MaxFloat64 | internal/cls/client.go:569-574 | The result is one of the two arguments and is at least each of them. |
| ClsClient.FirstNonBlankSpec | internal/cls/client.go:665-673 | `firstNonEmptyNonBlank` returns the trimmed form of the first non-blank value, and every earlier value is blank. It returns "" exactly when every value is blank. |
| ClsClient.FirstNonEmptyNonBlank | internal/cls/client.go:665-673 | The early-return loop computes `FirstNonBlank`. |
| ClsClient.NormalizeLeaseCount | internal/cls/client.go:379-382 | A lease count is always positive: a positive count is kept and any other count becomes 1. |
| ClsClient.BackfillServer | internal/cls/client.go:184-191 | A server with group id 0 takes the group's id, and one with an empty group name takes the group's name. Non-default values and all other fields are unchanged. |
| ClsClient.BackfillIdempotent | internal/cls/client.go:184-191 | Back-filling a second time changes nothing. |
| ClsClient.BackfillServers | internal/cls/client.go:184-191 | The in-place loop back-fills every listed server and keeps their number and order. |
| ClsClient.AppendFeatureRows | internal/cls/client.go:462-475 | The innermost loop appends one row per feature of a product key, in order. |
| ClsClient.AppendKeyRows | internal/cls/client.go:461-476 | The loop over product keys appends the rows of their features, key by key. |
| ClsClient.AppendGroupRows | internal/cls/client.go:460-477 | The loop over a group's entitlements appends the rows of their features, in nested order. |
| ClsClient.ExtractEntitlementFeatureMetrics | internal/cls/client.go:457-479 | The four nested loops produce `EntitlementRows`: each group's rows in turn. |
| ClsClient.KeyFeaturesHold | internal/cls/client.go:461-462 | A feature is among a run of product keys' features exactly when one of the keys lists it. |
| ClsClient.SummaryFeaturesHold | internal/cls/client.go:460-462 | A feature is among a group's features exactly when a product key of one of its entitlements lists it. |
| ClsClient.EntitlementRowsExact | internal/cls/client.go:457-479 | A row is extracted exactly when some listed group has that feature under some entitlement and product key, and the row carries that group's id and name. |
| ClsClient.EntitlementRowsCarryGroup | internal/cls/client.go:464-466 | Every extracted row carries the id and name of a listed group. |
| ClsClient.EntitlementRowsCount | internal/cls/client.go:457-479 | There is exactly one row per (group, entitlement, product key, feature). |
| Fetch.ListServersAllOk | internal/cls/client.go:172-196 | After the server phase, the group order lists each id stored in `serversByVG` exactly once. |
| Fetch.ListServersAllContents | internal/cls/client.go:177-196 | The ids stored are exactly the listed groups' ids. Under each id are the back-filled servers of a successful listing for a group with that id. |
| Fetch.ListServersAllFailure | internal/cls/client.go:180-183 | The server phase fails exactly when some group's server listing fails. |
| Fetch.ListServers | internal/cls/client.go:172-200 | The loop over the groups computes `ListServersAll`, stopping at the first failed listing. |
| Fetch.FetchSnapshot | internal/cls/client.go:161-308 | The four phases run in turn, stopping at the first error, and the result is `SnapshotOf`. |
| Fetch.FetchFailFast | internal/cls/client.go:161-306 | A snapshot is returned exactly when every listing the fetch makes succeeds. That covers the groups, every group's servers, every service instance's active leases (in groups with servers) and every server's pools. |
| Fetch.SnapshotProps | internal/cls/client.go:161-308 | A successful snapshot carries the given collection time and the extracted entitlement rows. Its active-lease total is the sum of its feature rows and is non-negative, and every feature row is positive. It has one usage row per visited server. Every usage row and pool row is clamped at zero, and a server that has an active-lease total reports that total as in use. |
| ActiveLeases.IndexByLastWins | internal/cls/client.go:342-346 | Building `serverByID` / `featureByAllotmentID` gives keys that are the ids of the listed items, and each id maps to the last item carrying it. |
| ActiveLeases.KeepFirst | internal/cls/client.go:347-349 | The instance set holds no id twice, and every id in it passes the filter. |
| ActiveLeases.KeepFirstExact | internal/cls/client.go:347-349 | An element is kept exactly when it occurs and passes the filter. |
| ActiveLeases.ServiceInstancesExact | internal/cls/client.go:347-349 | A group's service instances are distinct. They are exactly the ids some server carries whose trimmed form is not blank. |
| ActiveLeases.IndexFeatures | internal/cls/client.go:344-346 | The inner loop records each feature under its id, later ones overwriting earlier ones. |
| ActiveLeases.NoteInstance | internal/cls/client.go:347-349 | One server adds its instance id unless the id is blank or already present. |
| ActiveLeases.IndexGroup | internal/cls/client.go:336-350 | The loop over a group's servers builds the group index (name, servers by id, features by id, instance ids). |
| ActiveLeases.ServerIndexKeys | internal/cls/client.go:342-343 | An id is a key of `serverByID` exactly when some server of the group has it. |
| ActiveLeases.OnlyServerIsFirst | internal/cls/client.go:362-367 | When `serverByID` has one key, that key is the first server's id. |
| ActiveLeases.ResolveToOnlyServer | internal/cls/client.go:361-367 | A client whose server id is blank, in a group with a single server id, is charged to that id. |
| ActiveLeases.ResolveExplicit | internal/cls/client.go:361 | A client with a non-blank server id is charged to that id, trimmed. |
| ActiveLeases.ResolveAmbiguousSkips | internal/cls/client.go:368-370 | A blank server id in a group with zero or several server ids skips all of the client's leases. |
| ActiveLeases.OrUnknownNonEmpty | internal/cls/client.go:386-387 | A value defaulted to "unknown" is never empty. |
| ActiveLeases.EntryForWellFormed | internal/cls/client.go:379-397 | Every lease entry has a positive count, and its key names the server it is charged to. |
| ActiveLeases.ClientEntriesWellFormed | internal/cls/client.go:360-397 | Every entry of a client is well formed. |
| ActiveLeases.ResponseEntriesWellFormed | internal/cls/client.go:360-397 | Every entry of a response is well formed. |
| ActiveLeases.EmptyTallyInv | internal/cls/client.go:321-329 | The empty totals satisfy the tally invariant. |
| ActiveLeases.CountInv | internal/cls/client.go:399-410 | Counting a positive lease keeps the invariant: all totals stay positive, and the grand total equals the sum of the server totals, of the feature totals, and of the feature totals in listed order. |
| ActiveLeases.TallyFromInv | internal/cls/client.go:399-410 | Counting any run of positive leases keeps the invariant. |
| ActiveLeases.TallySeen | internal/cls/client.go:399-407 | The set of seen ids grows by exactly the non-blank lease ids counted. |
| ActiveLeases.RepeatedLeaseIgnored | internal/cls/client.go:401-405 | A lease whose non-blank id was seen before changes nothing. |
| ActiveLeases.BlankLeaseCounted | internal/cls/client.go:399-410 | A lease with a blank id is always added to the grand total and to its server's total. |
| ActiveLeases.TallyTotalIsCounted | internal/cls/client.go:399-410 | The grand total grows by the reference sum over the counted leases: those with a blank id, plus the first lease with each non-blank id. |
| ActiveLeases.TallyServerIsCounted | internal/cls/client.go:399-408 | Each server's total grows by the reference sum over the counted leases charged to it. |
| ActiveLeases.LeaseEntryOf | internal/cls/client.go:379-397 | The first half of the lease-loop body computes the entry: normalised count, feature lookup, defaulted key. |
| ActiveLeases.Record | internal/cls/client.go:398-411 | The locked section computes `Count`: skip a lease id already seen, otherwise add the count to all three totals. |
| ActiveLeases.ResolveClient | internal/cls/client.go:361-376 | The start of the client-loop body resolves the server id, the server record and the server name. |
| ActiveLeases.CountLeases | internal/cls/client.go:378-412 | The loop over one client's leases folds `Count` over the client's entries. |
| ActiveLeases.CountClient | internal/cls/client.go:361-413 | A client's leases are counted, and a client that resolves to no server is skipped. |
| ActiveLeases.CountResponse | internal/cls/client.go:360-414 | The loop over one response's clients folds `Count` over the response's entries. |
| ActiveLeases.CountGroup | internal/cls/client.go:352-416 | The loop over a group's service instances counts each listing in turn. It reports the first failed listing as the error. |
| ActiveLeases.BuildServerRows | internal/cls/client.go:423-438 | The loop builds one row per (group, server) whose id has a total, group by group. |
| ActiveLeases.BuildFeatureRows | internal/cls/client.go:440-452 | The loop builds the feature rows. |
| ActiveLeases.FetchActiveLeaseUsage | internal/cls/client.go:320-455 | The phase computes `ActiveLeaseUsageOf`. It skips empty groups, stops at the first failed listing, and otherwise returns the totals and rows. |
| ActiveLeases.GroupEntriesPositive | internal/cls/client.go:379-382 | Every entry of a group's listings has a positive count. |
| ActiveLeases.AllEntriesPositive | internal/cls/client.go:379-382 | Every entry of the phase has a positive count. |
| ActiveLeases.FeatureRowsTotalIsSum | internal/cls/client.go:440-452 | The feature rows' counts add up to the sum of the feature totals. |
| ActiveLeases.ActiveLeaseTotalsAgree | internal/cls/client.go:408-410 | On success the grand total equals the sum of the server totals and equals the sum of the feature rows. It is non-negative, and every server total and feature row is positive. |
| ActiveLeases.ActiveLeasesCountedOnce | internal/cls/client.go:399-410 | On success the grand total, and each server's total, are the reference sums over the counted leases of the whole phase, across all service-instance responses. |
| ActiveLeases.GroupEntriesFailure | internal/cls/client.go:355-358 | A group's listings fail exactly when one service instance's listing fails. |
| ActiveLeases.GroupEntriesFirstFailure | internal/cls/client.go:355-358 | A failing group reports the first failing service instance, with its group, instance id and error. |
| ActiveLeases.AllEntriesFailure | internal/cls/client.go:418-420 | The phase fails exactly when some group with servers has a failing listing. |
| ActiveLeases.ServerRowsOfExact | internal/cls/client.go:425-437 | A server row is produced exactly for each server of the group whose id has a total. The row carries that total and the server's name and group name. |
| ServerPools.Available | internal/cls/client.go:253-256 | Available is allotted minus in use, clamped below at zero: never negative, and at least allotted minus in use. |
| ServerPools.AppendPoolRows | internal/cls/client.go:249-272 | The inner loop appends a pool's rows and keeps the running allotted and in-use figures equal to the sums over all rows so far. |
| ServerPools.SummarizeServer | internal/cls/client.go:225-292 | One server's task computes its capacity rows, its pool rows and its usage row (`SummaryOf`). |
| ServerPools.PoolRowsAllotment | internal/cls/client.go:258-259 | A server's allotted figure is the sum of the allotments of all its pools' features. |
| ServerPools.PoolRowsClamped | internal/cls/client.go:252-256 | Every pool row's available figure is clamped at zero. |
| ServerPools.SummaryProps | internal/cls/client.go:277-292 | The usage row reports the summed allotment. Its in-use figure is the active-lease total when that exists, and the pools' in-use sum otherwise. Available is allotted minus that figure, never negative. Every pool row is clamped, and there is one capacity row per feature. |
| ServerPools.PoolsOfGroup | internal/cls/client.go:217-300 | The loop over a group's servers adds each server's task, stopping at the first failed pool listing. |
| ServerPools.FetchPools | internal/cls/client.go:210-306 | The loop over the listed groups adds every server's task, group by group, and a failed listing is the phase's error. |
| ServerPools.AddServerOk | internal/cls/client.go:277-297 | Adding a server's task keeps every usage row and pool row clamped, and a server with an active-lease total reports it in use. It adds one usage row. |
| ServerPools.GroupPoolsOk | internal/cls/client.go:217-300 | A group's tasks keep the output well formed and add one usage row per server. |
| ServerPools.AllPoolsOk | internal/cls/client.go:214-306 | The phase yields one usage row per visited server, all well formed. |
| ServerPools.GroupPoolsSuccess | internal/cls/client.go:219-222 | A group's tasks succeed exactly when every one of its pool listings succeeds. |
| ServerPools.AllPoolsSuccess | internal/cls/client.go:303-305 | The pool phase succeeds exactly when every pool listing of every server of every listed group succeeds. |
| Decimal.ParseItoa | internal/exporter/collector.go:121 | The decimal `virtual_group_id` label reads back as the group id. |
| Decimal.ItoaInjective | internal/exporter/collector.go:121 | Different group ids get different `virtual_group_id` labels. |
| SnapshotCache.EffectiveTtl | internal/snapshot/service.go:37-46 | The TTL is positive: the given one when positive, else 60 s. |
| SnapshotCache.Service.constructor | internal/snapshot/service.go:37-46 | A new service has the effective TTL, nothing cached, the zero meta and a zero `cachedAt`. |
| SnapshotCache.Service.Refresh | internal/snapshot/service.go:65-122 | One fetch runs. The new state and the result are `RefreshStep` of the old state. |
| SnapshotCache.Service.Get | internal/snapshot/service.go:48-63 | The new state and the result are `GetStep` of the old state. The fetcher runs once on a miss and not at all on a hit. |
| SnapshotCache.Service.Latest | internal/snapshot/service.go:124-132 | `ok` is false exactly when nothing is cached. Latest returns the stored snapshot, and the stored meta or the zero meta. |
| SnapshotCache.Service.CurrentMeta | internal/snapshot/service.go:134-138 | Returns the stored meta. |
| SnapshotCache.InitialValid | internal/snapshot/service.go:42-45 | A new service's state satisfies the cache invariant. |
| SnapshotCache.StepsKeepValid | internal/snapshot/service.go:77-113 | Every `Refresh` and `Get` keeps the invariant: `up` is 0 or 1, and no stored meta is a cache hit. With nothing cached, `up` is 0 and `cachedAt` stays zero. With a snapshot cached, the meta reports its collection time. |
| SnapshotCache.HitServesCache | internal/snapshot/service.go:56-60 | A cache hit causes no fetch and leaves the state unchanged. It serves the cached snapshot with the stored meta, marked as a cache hit with duration 0. The answer does not depend on what the fetcher would return. |
| SnapshotCache.MissRefreshes | internal/snapshot/service.go:62 | With nothing cached, or with a snapshot at least a TTL old, `Get` fetches once and acts exactly as `Refresh`. |
| SnapshotCache.RefreshCommits | internal/snapshot/service.go:77-91 | A successful fetch is stored with `cachedAt` set to now. Its meta (up 1, the fetch duration, the snapshot's collection time, not a hit) is both stored and returned. |
| SnapshotCache.RefreshFallsBack | internal/snapshot/service.go:97-105 | A failed fetch with a snapshot cached returns no error and the same snapshot, with a down meta stamped at the snapshot's collection time. The snapshot and `cachedAt` are unchanged. |
| SnapshotCache.RefreshFailsUncached | internal/snapshot/service.go:108-118 | A failed fetch with nothing cached returns the fetch error and stores a down meta stamped now. Nothing gets cached. |
| SnapshotCache.RefreshErrorIff | internal/snapshot/service.go:116-118 | `Refresh` returns an error exactly when the fetch failed and nothing was cached. |
| SnapshotCache.ServedMetaMatches | internal/snapshot/service.go:56-105 | From a valid state, a served meta reports the served snapshot's collection time, and `up` is 0 or 1. It is a cache hit exactly when no fetch ran. Otherwise `up` is 1 exactly when the fetch succeeded. |
| SnapshotCache.NeverCleared | internal/snapshot/service.go:85-89 | Once a snapshot is stored, no `Refresh` or `Get` clears it. |
| SnapshotCache.GetAllValid | internal/snapshot/service.go:48-122 | Over any run of `Get` calls, a valid state stays valid and a stored snapshot stays stored. |
| MetricLabels.SafeLabelSpec | internal/otel/metrics.go:365-371 | `safeLabel` never returns "" and never starts or ends with white space. A blank value gives "unknown", and any other value comes back trimmed. |
| MetricLabels.SafeLabelIdempotent | internal/exporter/collector.go:171-177 | A label passes through `safeLabel` unchanged. |
| MetricLabels.RenderSpec | internal/exporter/collector.go:120-127 | A label list has the decimal group id, which reads back as the id, then each field through `safeLabel`. No label is empty and every label after the id is a fixed point of `safeLabel`. |
| MetricLabels.LabelsMatchKeys | internal/exporter/collector.go:57-75 | Each row kind's label list has exactly one label per variable label key of its metric. |
| OtelMetrics.NormalizeConfig | internal/otel/metrics.go:239-247 | A non-positive push interval becomes 60 s and a non-positive refresh timeout becomes 20 s. Both end up positive and no other field changes. |
| OtelMetrics.NormalizeConfigIdempotent | internal/otel/metrics.go:239-247 | Normalising twice changes nothing more. |
| OtelMetrics.CheckConfigSpec | internal/otel/metrics.go:61-68 | A blank endpoint is rejected whatever the service name is. A blank service name is rejected only when the endpoint is present. Otherwise the normalised configuration is accepted. |
| OtelMetrics.BuildObservations | internal/otel/metrics.go:285-363 | The four append loops produce `Observations`: the scrape observations, then each row block in turn. |
| OtelMetrics.ObservationCount | internal/otel/metrics.go:285-363 | Exactly 3 + the four row counts observations are produced. |
| OtelMetrics.ObservationsIgnoreUnexported | internal/otel/metrics.go:285-363 | Pool rows and per-server active-lease rows have no effect on the observations. |
| OtelMetrics.ObservationLayout | internal/otel/metrics.go:289-360 | First come up, duration and timestamp, valued `meta.Up`, the duration and the Unix seconds of the timestamp. Then the entitlement, capacity, active-lease and server-info blocks follow in order, each in row order. |
| OtelMetrics.EntitlementBlock | internal/otel/metrics.go:295-309 | Observation 3 + i is the i-th entitlement row's observation. |
| OtelMetrics.CapacityBlock | internal/otel/metrics.go:311-326 | The capacity block follows the entitlements, in row order. |
| OtelMetrics.ActiveBlock | internal/otel/metrics.go:328-343 | The active-lease block follows the capacity block, in row order. |
| OtelMetrics.InfoBlock | internal/otel/metrics.go:345-360 | The server-info block comes last, in row order. |
| OtelMetrics.RenderedAttrsOk | internal/otel/metrics.go:299-307 | A row's attributes are `org_name` first, then one attribute per label key, in key order, each with a non-empty value. |
| OtelMetrics.EntitlementObservationOk | internal/otel/metrics.go:296-308 | An entitlement observation starts with `org_name`, and its other attributes are non-empty. |
| OtelMetrics.CapacityObservationOk | internal/otel/metrics.go:312-325 | A capacity observation starts with `org_name`, and its other attributes are non-empty. |
| OtelMetrics.ActiveObservationOk | internal/otel/metrics.go:329-342 | An active-lease observation starts with `org_name`, and its other attributes are non-empty. |
| OtelMetrics.InfoObservationOk | internal/otel/metrics.go:346-359 | A server-info observation starts with `org_name`, and its other attributes are non-empty. |
| OtelMetrics.ObservationAttributes | internal/otel/metrics.go:287-360 | Every observation's first attribute is `org_name` with the organisation's name, and its other attributes are non-empty. Exactly the first three observations are scrape metrics, and they carry only `org_name`. A server-info observation always has the value 1. |
| Exporter.SendRows | internal/exporter/collector.go:119-168 | The four send loops append one sample per entitlement, capacity, active-lease and usage row, block by block. |
| Exporter.Collect | internal/exporter/collector.go:99-169 | The service steps as `Get` does. The samples sent are `Collected` of the reply and the service's meta right after it. |
| Exporter.FailureSendsScrapeOnly | internal/exporter/collector.go:104-113 | The error branch sends up 0, then the last duration, then the last timestamp exactly when it is not zero. No row samples and no labels are sent. |
| Exporter.FailedFirstCollect | internal/exporter/collector.go:103-113 | Collecting with nothing cached while the fetch fails reports down, with that fetch's duration, and with its completion time unless that time is zero. |
| Exporter.SuccessLayout | internal/exporter/collector.go:115-168 | The success branch sends 3 + the four row counts samples. The first three are up, duration and timestamp from the returned meta. The four blocks follow in order, each in row order, and every server-info sample has value 1. |
| Exporter.EntitlementBlock | internal/exporter/collector.go:119-129 | Sample 3 + i is the i-th entitlement row's sample. |
| Exporter.CapacityBlock | internal/exporter/collector.go:131-142 | The capacity block follows the entitlements, in row order. |
| Exporter.ActiveBlock | internal/exporter/collector.go:144-155 | The active-lease block follows the capacity block, in row order. |
| Exporter.InfoBlock | internal/exporter/collector.go:157-168 | The server-info block comes last, in row order. |
| Exporter.RenderedLabelsOk | internal/exporter/collector.go:120-127 | A row sample's labels start with a decimal id, and none is empty. |
| Exporter.SuccessLabels | internal/exporter/collector.go:115-168 | In the success branch exactly the first three samples are scrape metrics, and they have no labels. Every row sample's first label is a decimal id, and no label is empty. |
| Startup.GetenvSpec | cmd/nvidia-license-server-exporter/main.go:199-205 | A blank or unset variable gives the fallback. Any other variable is returned trimmed: non-empty, with no white space at either end. |
| Startup.FromEnvSpec | cmd/nvidia-license-server-exporter/main.go:207-242 | `intFromEnv`, `boolFromEnv` and `durationFromEnv` give the fallback when the trimmed value is empty or does not parse, and the parsed value otherwise. |
| Startup.BoolFromEnvExamples | cmd/nvidia-license-server-exporter/main.go:220-230 | An unset variable gives the fallback, and "false" with any leading white space reads as false. |
| Startup.HostnameOrUnknown | cmd/nvidia-license-server-exporter/main.go:244-250 | The result is "unknown" when the lookup fails or returns a blank name, and the host name otherwise. |
| Startup.FirstNonEmptySpec | cmd/nvidia-license-server-exporter/main.go:252-259 | `firstNonEmpty` returns, untrimmed, the value at the first non-blank position, or "" when every value is blank. Trimmed, it is what `firstNonEmptyNonBlank` returns. |
| Startup.FirstNonEmpty | cmd/nvidia-license-server-exporter/main.go:252-259 | The early-return loop computes `FirstNonEmptyOf`. |
| Startup.PrimaryThenLegacy | cmd/nvidia-license-server-exporter/main.go:31-32 | The org name and the API key are the trimmed primary variable unless it is blank, and then the trimmed legacy one. |
| Startup.ListenAddressSpec | cmd/nvidia-license-server-exporter/main.go:261-275 | The address is, in order of preference: a non-blank `LISTEN_ADDRESS`, trimmed; a non-blank `PORT`, trimmed, with ':' prepended unless it already starts with one; ":9844". It is never empty, and it starts with ':' whenever it does not come from `LISTEN_ADDRESS`. |

## Left out

- The HTTP client and JSON decoding (`doJSON` and the four `list*` calls) are not modelled. Their results are the input `Upstream`, one `Result` per listing.
- Concurrency is not modelled. This covers the `errgroup` fan-out with `SetLimit`, context cancellation between tasks, and the mutexes. Each phase is a sequential loop in a fixed order, and the first failure in that order is the error. In Go, the error reported and the order of the appended rows depend on completion order.
- Go map iteration order is not modelled. Groups, service instances and feature keys are visited in first-occurrence order; Go visits them in an unspecified order.
- The cache's `singleflight` coalescing and its `RWMutex` are not modelled. Each `Refresh` is one atomic step, so the "N concurrent refreshes lead to one fetch" behaviour is not captured.
- The clock (`time.Now`, `time.Since`) and the fetcher are parameters: an `Attempt` carries the fetch outcome, its duration and the time right after it.
- `os.Getenv` and `os.Hostname` are parameters: the environment is a map, and the host-name result is a `Result`.
- `fmt.Sscanf` with "%d" and `time.ParseDuration` are parser functions passed in; their own parsing rules are not modelled. `strconv.ParseBool` is written out.
- The OpenTelemetry plumbing is not modelled: resource and exporter creation, the meter provider, `Start`/`Shutdown` and the ticker goroutine, `refreshOnce` (which is `Refresh` with a timeout), `registerMetrics` and its observer callback, and `loggingExporter`. These are library calls and background goroutines.
- The Prometheus plumbing is not modelled: `NewCollector`, `Describe`, `MustNewConstMetric` and the channel. `Collect` returns its samples as a sequence. The constant `org_name` label of each descriptor is omitted from the samples.
- `main` is not modelled: flag parsing, the HTTP mux and server, the middleware, signal handling and log output. Logging is not modelled anywhere.
- Floating point is not modelled: quantities are exact reals, so no rounding behaviour is claimed.
- Go `int` overflow is not modelled, for group ids, parallelism and durations.
- Snapshot pointer identity is modelled as value equality.
- The two `NewClient` errors are the `ConfigError` constructors `ApiKeyRequired` and `OrgNameRequired`; their message text is not modelled.
- Fetch errors are the values of one `FetchError` datatype. Go wraps them with `fmt.Errorf`; context errors and the error text are not modelled.
- Exporter.SuccessLabels: states that every label is non-empty and that the first is a decimal id. The number of labels per key list is stated separately by `MetricLabels.LabelsMatchKeys`.
