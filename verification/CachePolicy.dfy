/**
 The decisions `auth-oidc/src/cache.rs` takes while it holds the data lock, one function per lock acquisition.
 The sequential cache (`KeyCache`) and the concurrent protocol (`CacheProtocol`) are both built from them.

 `K` is how a cached key set is represented: the set itself in the sequential cache, a shared reference with
 an identity in the protocol.
 */
module CachePolicy {
  import opened Prelude
  import opened Jwks

  /** A monotonic clock reading and a span of time, in nanoseconds. */
  type Instant = int
  const DURATION_MAX: nat := 0xFFFF_FFFF_FFFF_FFFF * 1_000_000_000 + 999_999_999
  type Duration = d: nat | d <= DURATION_MAX
  const DAY: Duration := 24 * 3600 * 1_000_000_000

  /** `ttl.saturating_mul(24)`. */
  function SaturatingTimes24(d: Duration): Duration {
    if d * 24 <= DURATION_MAX then d * 24 else DURATION_MAX
  }

  /** `now.saturating_duration_since(since)`: zero when `now` is the earlier of the two. */
  function Elapsed(now: Instant, since: Instant): nat {
    if now < since then 0 else now - since
  }

  datatype Config = Config(minRefetch: Duration, ttl: Duration) {
    /** The absolute staleness ceiling: 24 times the TTL, and never under a day. */
    function MaxStale(): Duration {
      var scaled := SaturatingTimes24(ttl);
      if scaled < DAY then DAY else scaled
    }
  }

  /** The cached data behind the data lock. */
  datatype Inner<+K> = Inner(keys: Option<K>, fetchedAt: Option<Instant>, lastAttempt: Option<Instant>)

  type Served<+K> = Result<Option<K>, Error>

  predicate PermitsAttempt<K>(cfg: Config, inner: Inner<K>, now: Instant) {
    inner.lastAttempt.Some? ==> Elapsed(now, inner.lastAttempt.value) >= cfg.minRefetch
  }

  predicate PastCeiling<K>(cfg: Config, inner: Inner<K>, now: Instant) {
    inner.fetchedAt.Some? && Elapsed(now, inner.fetchedAt.value) >= cfg.MaxStale()
  }

  predicate Stale<K>(cfg: Config, inner: Inner<K>, now: Instant) {
    inner.fetchedAt.Some? ==> Elapsed(now, inner.fetchedAt.value) >= cfg.ttl
  }

  function ServeWithinCeiling<K>(cfg: Config, inner: Inner<K>, now: Instant): Served<K> {
    if PastCeiling(cfg, inner, now) then Err(StaleKeys) else Ok(inner.keys)
  }

  /** The keys `with_key` starts from, and whether it must refresh before using them. */
  datatype View<+K> = View(keys: Option<K>, refresh: bool)

  function Snapshot<K>(cfg: Config, inner: Inner<K>, now: Instant): View<K> {
    var keys := if PastCeiling(cfg, inner, now) then None else inner.keys;
    View(keys, keys.None? || Stale(cfg, inner, now))
  }

  predicate NothingToServe<K>(cfg: Config, inner: Inner<K>, now: Instant) {
    inner.keys.None? || PastCeiling(cfg, inner, now)
  }

  datatype OuterVerdict<+K> = TurnedAway(served: Served<K>) | Proceed(desperate: bool)

  /** `refresh` before it takes the gate. */
  function OuterCheck<K>(cfg: Config, inner: Inner<K>, now: Instant, wait: bool): OuterVerdict<K> {
    var desperate := wait && NothingToServe(cfg, inner, now);
    if !desperate && !PermitsAttempt(cfg, inner, now)
    then TurnedAway(ServeWithinCeiling(cfg, inner, now))
    else Proceed(desperate)
  }

  datatype GateVerdict<+K> = Satisfied(served: Served<K>) | Claimed(inner: Inner<K>)

  /** `refresh` under the gate: the re-check, and the claim of the attempt window before the fetch. */
  function GateCheck<K>(cfg: Config, inner: Inner<K>, now: Instant, desperate: bool): GateVerdict<K> {
    if desperate && inner.keys.Some? && !PastCeiling(cfg, inner, now) then
      Satisfied(ServeWithinCeiling(cfg, inner, now))
    else if !PermitsAttempt(cfg, inner, now) then
      Satisfied(ServeWithinCeiling(cfg, inner, now))
    else
      Claimed(inner.(lastAttempt := Some(now)))
  }

  /** `refresh` after a successful fetch. */
  function Install<K>(inner: Inner<K>, now: Instant, keys: K): Inner<K> {
    inner.(keys := Some(keys), fetchedAt := Some(now))
  }

  /** `refresh` after a failed fetch: the previous keys, unless there are none or they are past the ceiling. */
  function FallBack<K>(cfg: Config, inner: Inner<K>, now: Instant, failure: Error): Served<K> {
    if inner.keys.Some? && !PastCeiling(cfg, inner, now) then Ok(inner.keys) else Err(failure)
  }

  /** What the provider answers to one fetch: a response body, a transport error, or a panicking fetcher. */
  datatype Fetch = Body(doc: Document) | TransportError | FetchPanics

  /** A finished call: it returned, or a panic of the fetcher or of the check unwound it. */
  datatype Outcome<+T> = Returned(result: Result<T, Error>) | Panicked

  /** The ceiling is never below the TTL, so keys past the ceiling are always stale too. */
  lemma CeilingCoversTtl(cfg: Config)
    ensures cfg.MaxStale() >= cfg.ttl
    ensures cfg.MaxStale() >= DAY
  {
  }

  /**
   The rules in figures, for data stamped at `t` and attempted at `u`. Keys are past the ceiling once they are a day
   old and 24 TTLs old, or as old as a duration can be; they are stale once they are a TTL old, and at once with TTL
   zero; an attempt is permitted an interval after the last one, and at once with interval zero. A reading before `t`
   or `u` counts as no time at all.
   */
  lemma RulesInFigures<K>(cfg: Config, inner: Inner<K>, now: Instant, t: Instant, u: Instant)
    ensures inner.fetchedAt == Some(t) ==>
              && (PastCeiling(cfg, inner, now) <==>
                    && now - t >= 86_400_000_000_000
                    && (now - t >= 24 * cfg.ttl || now - t >= 18_446_744_073_709_551_615_999_999_999))
              && (Stale(cfg, inner, now) <==> cfg.ttl == 0 || now - t >= cfg.ttl)
    ensures inner.fetchedAt == None ==> !PastCeiling(cfg, inner, now) && Stale(cfg, inner, now)
    ensures inner.lastAttempt == Some(u) ==>
              (PermitsAttempt(cfg, inner, now) <==> cfg.minRefetch == 0 || now - u >= cfg.minRefetch)
    ensures inner.lastAttempt == None ==> PermitsAttempt(cfg, inner, now)
    ensures NothingToServe(cfg, inner, now) <==> inner.keys == None || PastCeiling(cfg, inner, now)
  {
  }
}
