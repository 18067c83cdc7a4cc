/**
 * The snapshot cache of internal/snapshot/service.go. A `Service` keeps the last snapshot it
 * fetched, the metadata of the last refresh and the time the snapshot was cached. `Get` serves
 * the cached snapshot while it is younger than the cache TTL and refreshes otherwise; `Refresh`
 * runs the fetcher once and, when the fetch fails, falls back to the stale snapshot if there is
 * one. The clock and the fetcher are inputs: an `Attempt` is what one fetch returned, how long it
 * took and the clock reading right after it.
 */
module SnapshotCache {
  import opened Results
  import opened GoTime
  import opened ClsTypes

  const DefaultCacheTtl: Duration := 60 * Second

  /** Metadata of the last refresh: whether it succeeded, how long it took, and which time it reports. */
  datatype Meta = Meta(up: real, durationSeconds: real, timestamp: Time, cacheHit: bool)

  /** Go's zero `Meta{}`. */
  const ZeroMeta := Meta(0.0, 0.0, 0, false)

  /** One run of the fetcher: its outcome, its duration in seconds, and the clock right after it. */
  datatype Attempt = Attempt(outcome: Result<Snapshot, FetchError>, durationSeconds: real, completedAt: Time)

  /** What `Get` and `Refresh` hand back without an error: a snapshot and the metadata for it. */
  datatype Served = Served(snapshot: Snapshot, meta: Meta)

  /** The fields a refresh overwrites; `snapshot == None` is Go's nil pointer. */
  datatype CacheState = CacheState(snapshot: Option<Snapshot>, meta: Meta, cachedAt: Time)

  const Initial := CacheState(None, ZeroMeta, 0)

  /** The TTL `NewService` keeps. */
  function EffectiveTtl(cacheTtl: Duration): (ttl: Duration)
    ensures ttl > 0
    ensures cacheTtl > 0 ==> ttl == cacheTtl
    ensures cacheTtl <= 0 ==> ttl == 60 * Second
  {
    if cacheTtl <= 0 then DefaultCacheTtl else cacheTtl
  }

  /** `Get` can answer from the cache: a snapshot is stored and it is younger than the TTL. */
  predicate Fresh(st: CacheState, ttl: Duration, now: Time) {
    st.snapshot.Some? && Sub(now, st.cachedAt) < ttl
  }

  /** The state after `Refresh` runs the fetch `a`, and what it returns. */
  function RefreshStep(st: CacheState, a: Attempt): (CacheState, Result<Served, FetchError>) {
    match a.outcome
    case Success(fetched) =>
      var m := Meta(1.0, a.durationSeconds, fetched.collectedAt, false);
      (CacheState(Some(fetched), m, a.completedAt), Success(Served(fetched, m)))
    case Failure(err) =>
      if st.snapshot.Some? then
        var m := Meta(0.0, a.durationSeconds, st.snapshot.value.collectedAt, false);
        (st.(meta := m), Success(Served(st.snapshot.value, m)))
      else
        (st.(meta := Meta(0.0, a.durationSeconds, a.completedAt, false)), Failure(err))
  }

  /** The state after `Get` at time `now`, and what it returns; `a` is the fetch it would run on a miss. */
  function GetStep(st: CacheState, ttl: Duration, now: Time, a: Attempt): (CacheState, Result<Served, FetchError>) {
    if Fresh(st, ttl, now) then
      (st, Success(Served(st.snapshot.value, st.meta.(cacheHit := true, durationSeconds := 0.0))))
    else RefreshStep(st, a)
  }

  /** How many times `Get` runs the fetcher. */
  function GetFetches(st: CacheState, ttl: Duration, now: Time): nat {
    if Fresh(st, ttl, now) then 0 else 1
  }

  /**
   * What every reachable state satisfies: `up` is 0 or 1 and no stored meta is a cache hit; with
   * no snapshot stored, `up` is 0 and `cachedAt` is still zero; with one stored, the meta reports
   * its collection time.
   */
  ghost predicate Valid(st: CacheState) {
    && (st.meta.up == 0.0 || st.meta.up == 1.0)
    && !st.meta.cacheHit
    && (st.snapshot.None? ==> st.meta.up == 0.0 && st.cachedAt == 0)
    && (st.snapshot.Some? ==> st.meta.timestamp == st.snapshot.value.collectedAt)
  }

  class Service {
    const cacheTtl: Duration
    var snapshot: Option<Snapshot>
    var meta: Meta
    var cachedAt: Time
    /** How many times the fetcher has run. */
    ghost var fetches: nat

    function State(): CacheState
      reads this
    {
      CacheState(snapshot, meta, cachedAt)
    }

    /** `NewService`: nothing cached, and a TTL of 60 s unless a positive one is given. */
    constructor (cacheTtl: Duration)
      ensures this.cacheTtl == EffectiveTtl(cacheTtl)
      ensures State() == Initial && fetches == 0
    {
      this.cacheTtl := EffectiveTtl(cacheTtl);
      snapshot := None;
      meta := ZeroMeta;
      cachedAt := 0;
      fetches := 0;
    }

    /** `Refresh`: one fetch, committed on success; a stale snapshot is served when it fails. */
    method Refresh(a: Attempt) returns (r: Result<Served, FetchError>)
      modifies this
      ensures (State(), r) == RefreshStep(old(State()), a)
      ensures fetches == old(fetches) + 1
    {
      fetches := fetches + 1;
      match a.outcome {
        case Success(fetched) =>
          var m := Meta(1.0, a.durationSeconds, fetched.collectedAt, false);
          snapshot := Some(fetched);
          meta := m;
          cachedAt := a.completedAt;
          return Success(Served(fetched, m));
        case Failure(err) =>
          if snapshot.Some? {
            var stale := Meta(0.0, a.durationSeconds, snapshot.value.collectedAt, false);
            meta := stale;
            return Success(Served(snapshot.value, stale));
          }
          meta := Meta(0.0, a.durationSeconds, a.completedAt, false);
          return Failure(err);
      }
    }

    /** `Get` at time `now`: the cached snapshot while it is fresh, otherwise `Refresh` with the fetch `a`. */
    method Get(now: Time, a: Attempt) returns (r: Result<Served, FetchError>)
      modifies this
      ensures (State(), r) == GetStep(old(State()), cacheTtl, now, a)
      ensures fetches == old(fetches) + GetFetches(old(State()), cacheTtl, now)
    {
      var cached, m, at := snapshot, meta, cachedAt;
      if cached.Some? && Sub(now, at) < cacheTtl {
        return Success(Served(cached.value, m.(cacheHit := true, durationSeconds := 0.0)));
      }
      r := Refresh(a);
    }

    /** `Latest`: the stored snapshot and meta, or nothing and the zero meta. */
    method Latest() returns (s: Option<Snapshot>, m: Meta, ok: bool)
      ensures ok <==> snapshot.Some?
      ensures s == snapshot
      ensures m == if ok then meta else ZeroMeta
    {
      if snapshot.None? {
        return None, ZeroMeta, false;
      }
      return snapshot, meta, true;
    }

    /** `Meta`: the stored meta. */
    method CurrentMeta() returns (m: Meta)
      ensures m == meta
    {
      m := meta;
    }
  }

  // ---- What the cache promises ----

  lemma InitialValid()
    ensures Valid(Initial)
  {
  }

  /** Every refresh and every `Get` keeps the state valid. */
  lemma StepsKeepValid(st: CacheState, ttl: Duration, now: Time, a: Attempt)
    requires Valid(st)
    ensures Valid(RefreshStep(st, a).0)
    ensures Valid(GetStep(st, ttl, now, a).0)
  {
  }

  /**
   * A fresh cache answers `Get` without fetching: the state is unchanged, the stored snapshot is
   * served with the stored meta marked as a cache hit of zero duration, and the answer is the
   * same whatever the fetcher would have returned.
   */
  lemma HitServesCache(st: CacheState, ttl: Duration, now: Time, a: Attempt, b: Attempt)
    requires Fresh(st, ttl, now)
    ensures GetFetches(st, ttl, now) == 0
    ensures GetStep(st, ttl, now, a).0 == st
    ensures GetStep(st, ttl, now, a).1 == Success(Served(st.snapshot.value, Meta(st.meta.up, 0.0, st.meta.timestamp, true)))
    ensures GetStep(st, ttl, now, a) == GetStep(st, ttl, now, b)
  {
  }

  /** With nothing cached, or a snapshot at least a TTL old, `Get` fetches once and acts as `Refresh`. */
  lemma MissRefreshes(st: CacheState, ttl: Duration, now: Time, a: Attempt)
    requires st.snapshot.None? || now - st.cachedAt >= ttl
    ensures GetFetches(st, ttl, now) == 1
    ensures GetStep(st, ttl, now, a) == RefreshStep(st, a)
  {
  }

  /** A successful fetch is stored, cached at the time it completed, and reported as up. */
  lemma RefreshCommits(st: CacheState, a: Attempt)
    requires a.outcome.Success?
    ensures var (st', r) := RefreshStep(st, a);
            var m := Meta(1.0, a.durationSeconds, a.outcome.value.collectedAt, false);
            && st' == CacheState(Some(a.outcome.value), m, a.completedAt)
            && r == Success(Served(a.outcome.value, m))
  {
  }

  /**
   * A failed fetch with a snapshot cached serves that snapshot without an error, reported as down
   * at its collection time; only the meta changes.
   */
  lemma RefreshFallsBack(st: CacheState, a: Attempt)
    requires a.outcome.Failure? && st.snapshot.Some?
    ensures var (st', r) := RefreshStep(st, a);
            var m := Meta(0.0, a.durationSeconds, st.snapshot.value.collectedAt, false);
            && st' == CacheState(st.snapshot, m, st.cachedAt)
            && r == Success(Served(st.snapshot.value, m))
  {
  }

  /** A failed fetch with nothing cached returns its error, stores a down meta stamped now, and caches nothing. */
  lemma RefreshFailsUncached(st: CacheState, a: Attempt)
    requires a.outcome.Failure? && st.snapshot.None?
    ensures var (st', r) := RefreshStep(st, a);
            && st' == CacheState(None, Meta(0.0, a.durationSeconds, a.completedAt, false), st.cachedAt)
            && r == Failure(a.outcome.error)
  {
  }

  /** A refresh returns an error exactly when its fetch failed and nothing was cached. */
  lemma RefreshErrorIff(st: CacheState, a: Attempt)
    ensures RefreshStep(st, a).1.Failure? <==> a.outcome.Failure? && st.snapshot.None?
  {
  }

  /**
   * From a valid state, whatever `Get` serves carries the metadata of the served snapshot: its
   * collection time as timestamp, `up` 1 exactly when it was fetched just now, and a cache hit
   * exactly when no fetch ran.
   */
  lemma ServedMetaMatches(st: CacheState, ttl: Duration, now: Time, a: Attempt)
    requires Valid(st)
    requires GetStep(st, ttl, now, a).1.Success?
    ensures var s := GetStep(st, ttl, now, a).1.value;
            && s.meta.timestamp == s.snapshot.collectedAt
            && (s.meta.up == 0.0 || s.meta.up == 1.0)
            && (s.meta.cacheHit <==> GetFetches(st, ttl, now) == 0)
            && (!s.meta.cacheHit ==> (s.meta.up == 1.0 <==> a.outcome.Success?))
  {
  }

  /** Once a snapshot is stored no step clears it. */
  lemma NeverCleared(st: CacheState, ttl: Duration, now: Time, a: Attempt)
    requires st.snapshot.Some?
    ensures RefreshStep(st, a).0.snapshot.Some?
    ensures GetStep(st, ttl, now, a).0.snapshot.Some?
  {
  }

  /** The steps after a sequence of `Get` calls at the given times, each miss running the next fetch. */
  function GetAll(st: CacheState, ttl: Duration, calls: seq<(Time, Attempt)>): CacheState {
    if calls == [] then st
    else GetStep(GetAll(st, ttl, calls[..|calls| - 1]), ttl, calls[|calls| - 1].0, calls[|calls| - 1].1).0
  }

  /** Valid states stay valid and a stored snapshot stays stored over any run of `Get` calls. */
  lemma {:induction false} GetAllValid(st: CacheState, ttl: Duration, calls: seq<(Time, Attempt)>)
    requires Valid(st)
    ensures Valid(GetAll(st, ttl, calls))
    ensures st.snapshot.Some? ==> GetAll(st, ttl, calls).snapshot.Some?
  {
    if calls != [] {
      var prev := GetAll(st, ttl, calls[..|calls| - 1]);
      GetAllValid(st, ttl, calls[..|calls| - 1]);
      StepsKeepValid(prev, ttl, calls[|calls| - 1].0, calls[|calls| - 1].1);
      if prev.snapshot.Some? {
        NeverCleared(prev, ttl, calls[|calls| - 1].0, calls[|calls| - 1].1);
      }
    }
  }
}
