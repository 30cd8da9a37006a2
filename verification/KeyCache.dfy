/** `JwksCache` driven by one caller at a time: the object, and a specification of what `with_key` answers. */
module KeyCache {
  import opened Prelude
  import opened Jwks
  import opened KeyLookup
  import opened CachePolicy

  // ----- specification -----

  /** What a refresh leaves behind: the data, whether it fetched, and what it returned. */
  datatype Refreshed = Refreshed(inner: Inner<JwkSet>, fetched: bool, outcome: Outcome<Option<JwkSet>>)

  /** What a fetch hands on to the cache; a panicking fetcher hands on nothing. */
  function Received(fetch: Fetch): Option<Result<JwkSet, Error>> {
    match fetch
    case Body(doc) => Some(Parse(doc))
    case TransportError => Some(Err(FetchFailed))
    case FetchPanics => None
  }

  /** A refresh with nobody else around: it fetches exactly when the interval permits. */
  function RefreshAlone(cfg: Config, inner: Inner<JwkSet>, now: Instant, fetch: Fetch): Refreshed {
    if !PermitsAttempt(cfg, inner, now) then
      Refreshed(inner, false, Returned(ServeWithinCeiling(cfg, inner, now)))
    else
      var claimed := inner.(lastAttempt := Some(now));
      match Received(fetch)
      case None => Refreshed(claimed, true, Panicked)
      case Some(Ok(jwks)) => Refreshed(Install(claimed, now, jwks), true, Returned(Ok(Some(jwks))))
      case Some(Err(e)) => Refreshed(claimed, true, Returned(FallBack(cfg, claimed, now, e)))
  }

  /** The keys a call starts from: the cached ones if they are fresh, otherwise those of a refresh. */
  function Opening(cfg: Config, inner: Inner<JwkSet>, now: Instant, fetch: Fetch): Refreshed {
    if Snapshot(cfg, inner, now).refresh then RefreshAlone(cfg, inner, now, fetch)
    else Refreshed(inner, false, Returned(Ok(inner.keys)))
  }

  function Count(fetched: bool): nat {
    if fetched then 1 else 0
  }

  datatype Answer<+T> = Answer(inner: Inner<JwkSet>, fetches: nat, outcome: Outcome<T>)

  /** The answer once a refresh has returned no keys. */
  function Without<T>(r: Refreshed, fetches: nat, missing: Error): Answer<T>
    requires r.outcome.Returned? && r.outcome.result.Ok? ==> r.outcome.result.value.None?
  {
    Answer(r.inner, fetches,
           if r.outcome.Panicked? then Panicked
           else if r.outcome.result.Err? then Returned(Err(r.outcome.result.error))
           else Returned(Err(missing)))
  }

  predicate Gives(r: Refreshed) {
    r.outcome.Returned? && r.outcome.result.Ok? && r.outcome.result.value.Some?
  }

  /** The rest of `with_key` once the first lookup matched no key: one refresh, one more lookup. */
  function RotateAlone<T>(cfg: Config, inner: Inner<JwkSet>, kid: string, now: Instant,
                          check: Jwk -> Result<T, Error>, fetch: Fetch): Answer<T>
  {
    LookupAgain(RefreshAlone(cfg, inner, now, fetch), kid, check)
  }

  function LookupAgain<T>(r: Refreshed, kid: string, check: Jwk -> Result<T, Error>): Answer<T> {
    var n := Count(r.fetched);
    if !Gives(r) then Without(r, n, UnknownKid)
    else
      match TryAll(r.outcome.result.value.value, kid, check)
      case Some(result) => Answer(r.inner, n, Returned(result))
      case None => Answer(r.inner, n, Returned(Err(UnknownKid)))
  }

  /** `with_key` from its first lookup on. */
  function LookupAlone<T>(cfg: Config, inner: Inner<JwkSet>, jwks: JwkSet, kid: string, now: Instant,
                          check: Jwk -> Result<T, Error>, fetch: Fetch): Answer<T>
  {
    match TryAll(jwks, kid, check)
    case Some(result) => Answer(inner, 0, Returned(result))
    case None => RotateAlone(cfg, inner, kid, now, check, fetch)
  }

  /** `with_key` once its opening is done; `fetch` is the provider's next answer. */
  function AfterOpening<T>(cfg: Config, r: Refreshed, kid: string, now: Instant,
                           check: Jwk -> Result<T, Error>, fetch: Fetch): Answer<T>
  {
    if !Gives(r) then Without(r, Count(r.fetched), NothingFetched)
    else
      var a := LookupAlone(cfg, r.inner, r.outcome.result.value.value, kid, now, check, fetch);
      a.(fetches := Count(r.fetched) + a.fetches)
  }

  /** `with_key` with nobody else around; the provider's next answers are `script(from)`, `script(from + 1)`. */
  function WithKeyAlone<T>(cfg: Config, inner: Inner<JwkSet>, kid: string, now: Instant,
                           check: Jwk -> Result<T, Error>, script: nat -> Fetch, from: nat): Answer<T>
  {
    var r := Opening(cfg, inner, now, script(from));
    AfterOpening(cfg, r, kid, now, check, script(from + Count(r.fetched)))
  }

  /**
   The fetch gate as a call finds it: free, or held by somebody else, who will have left the data as `later` when the
   gate comes free.
   */
  datatype Gate = Free | Busy(later: Inner<JwkSet>)

  /** A refresh while somebody else is fetching, for a caller that does not wait. */
  function RefreshMeanwhile(cfg: Config, inner: Inner<JwkSet>, now: Instant): Refreshed {
    Refreshed(inner, false, Returned(ServeWithinCeiling(cfg, inner, now)))
  }

  /** The answer from one set of keys alone, with no refresh that could bring others. */
  function AnswerFrom<T>(jwks: JwkSet, kid: string, check: Jwk -> Result<T, Error>): Outcome<T> {
    match TryAll(jwks, kid, check)
    case Some(result) => Returned(result)
    case None => Returned(Err(UnknownKid))
  }

  /** A refresh that had to wait and gets the gate: it takes keys within the ceiling, or does what is left to do. */
  function RefreshWaited(cfg: Config, later: Inner<JwkSet>, now: Instant, fetch: Fetch): Refreshed {
    if NothingToServe(cfg, later, now) then RefreshAlone(cfg, later, now, fetch)
    else Refreshed(later, false, Returned(Ok(later.keys)))
  }

  /** A refresh at a gate in any state. */
  function RefreshAt(cfg: Config, gate: Gate, inner: Inner<JwkSet>, now: Instant, wait: bool, fetch: Fetch): Refreshed {
    match gate
    case Free => RefreshAlone(cfg, inner, now, fetch)
    case Busy(later) =>
      if wait && NothingToServe(cfg, inner, now) then RefreshWaited(cfg, later, now, fetch)
      else RefreshMeanwhile(cfg, inner, now)
  }

  /**
   `with_key` at a gate in any state. While somebody else is fetching, a call with keys to serve is answered from
   them; one with nothing to serve waits, and goes on from the data it finds then.
   */
  function WithKeyAt<T>(cfg: Config, gate: Gate, inner: Inner<JwkSet>, kid: string, now: Instant,
                        check: Jwk -> Result<T, Error>, script: nat -> Fetch, from: nat): Answer<T>
  {
    match gate
    case Free => WithKeyAlone(cfg, inner, kid, now, check, script, from)
    case Busy(later) =>
      if NothingToServe(cfg, inner, now) then
        var r := RefreshWaited(cfg, later, now, script(from));
        AfterOpening(cfg, r, kid, now, check, script(from + Count(r.fetched)))
      else Answer(inner, 0, AnswerFrom(inner.keys.value, kid, check))
  }

  // ----- the object -----

  /** A provider that answers its fetches from a script, and counts them. */
  class Fetcher {
    const script: nat -> Fetch
    var calls: nat

    constructor (script: nat -> Fetch)
      ensures this.script == script && calls == 0
    {
      this.script := script;
      calls := 0;
    }

    method Get() returns (r: Fetch)
      modifies this
      ensures r == script(old(calls)) && calls == old(calls) + 1
    {
      r := script(calls);
      calls := calls + 1;
    }
  }

  class JwksCache {
    const cfg: Config
    const fetcher: Fetcher
    var keys: Option<JwkSet>
    var fetchedAt: Option<Instant>
    var lastAttempt: Option<Instant>
    /** Whether the single-flight gate is held: during a fetch, by this call or by another one. */
    var gateHeld: bool

    /** The gate as a caller finds it; `later` is the data it would find when a held gate has come free. */
    function GateFor(later: Inner<JwkSet>): Gate
      reads this
    {
      if gateHeld then Busy(later) else Free
    }

    function Data(): Inner<JwkSet>
      reads this
    {
      Inner(keys, fetchedAt, lastAttempt)
    }

    constructor (fetcher: Fetcher, minRefetch: Duration, ttl: Duration)
      ensures !gateHeld && Data() == Inner(None, None, None)
      ensures cfg == Config(minRefetch, ttl) && this.fetcher == fetcher
    {
      this.cfg := Config(minRefetch, ttl);
      this.fetcher := fetcher;
      keys, fetchedAt, lastAttempt := None, None, None;
      gateHeld := false;
    }

    /** The cached set, whether it is past its TTL, and whether it is past the ceiling. */
    method TakeSnapshot(now: Instant) returns (cached: Option<JwkSet>, stale: bool, expired: bool)
      ensures cached == keys
      ensures stale == Stale(cfg, Data(), now) && expired == PastCeiling(cfg, Data(), now)
    {
      stale := match fetchedAt case None => true case Some(t) => Elapsed(now, t) >= cfg.ttl;
      expired := match fetchedAt case None => false case Some(t) => Elapsed(now, t) >= cfg.MaxStale();
      cached := keys;
    }

    /** The first data-lock section of `refresh`. */
    method CheckOuter(now: Instant, wait: bool) returns (v: OuterVerdict<JwkSet>)
      ensures v == OuterCheck(cfg, Data(), now, wait)
    {
      var desperate := wait && (keys.None? || PastCeiling(cfg, Data(), now));
      if !desperate && !PermitsAttempt(cfg, Data(), now) {
        return TurnedAway(ServeWithinCeiling(cfg, Data(), now));
      }
      return Proceed(desperate);
    }

    /** The second data-lock section of `refresh`; `None` means the attempt window is claimed. */
    method CheckUnderGate(now: Instant, desperate: bool) returns (served: Option<Served<JwkSet>>)
      modifies this`lastAttempt
      ensures match GateCheck(cfg, old(Data()), now, desperate)
              case Satisfied(r) => served == Some(r) && Data() == old(Data())
              case Claimed(inner) => served == None && Data() == inner
    {
      if desperate && keys.Some? && !PastCeiling(cfg, Data(), now) {
        return Some(ServeWithinCeiling(cfg, Data(), now));
      }
      if !PermitsAttempt(cfg, Data(), now) {
        return Some(ServeWithinCeiling(cfg, Data(), now));
      }
      lastAttempt := Some(now);
      return None;
    }

    /** The last data-lock section of `refresh`, after the fetch. */
    method Settle(now: Instant, fetched: Result<JwkSet, Error>) returns (served: Served<JwkSet>)
      modifies this`keys, this`fetchedAt
      ensures match fetched
              case Ok(jwks) => Data() == Install(old(Data()), now, jwks) && served == Ok(Some(jwks))
              case Err(e) => Data() == old(Data()) && served == FallBack(cfg, old(Data()), now, e)
    {
      match fetched {
        case Ok(jwks) =>
          keys := Some(jwks);
          fetchedAt := Some(now);
          served := Ok(keys);
        case Err(e) =>
          var tooStale := PastCeiling(cfg, Data(), now);
          var previous := keys;
          if previous.Some? && !tooStale {
            served := Ok(previous);
          } else {
            served := Err(e);
          }
      }
    }

    /** Blocking on the gate: when it comes free, others have left the data as `later`. */
    method AwaitGate(later: Inner<JwkSet>)
      modifies this
      ensures !gateHeld && Data() == later
    {
      keys, fetchedAt, lastAttempt := later.keys, later.fetchedAt, later.lastAttempt;
      gateHeld := false;
    }

    /**
     With the gate free a refresh fetches exactly when the interval permits, whatever `wait` is. While somebody else
     is fetching it serves what is cached; if that is nothing and it may wait, it waits, and then takes keys within
     the ceiling from the data as it finds them, or fetches exactly when the interval permits.
     */
    method Refresh(now: Instant, wait: bool, later: Inner<JwkSet>) returns (outcome: Outcome<Option<JwkSet>>)
      modifies this, fetcher
      ensures gateHeld == (old(gateHeld) && !(wait && NothingToServe(cfg, old(Data()), now)))
      ensures var r := RefreshAt(cfg, old(GateFor(later)), old(Data()), now, wait,
                                 fetcher.script(old(fetcher.calls)));
              && Data() == r.inner
              && outcome == r.outcome
              && fetcher.calls == old(fetcher.calls) + Count(r.fetched)
    {
      var outer := CheckOuter(now, wait);
      if outer.TurnedAway? {
        return Returned(outer.served);
      }
      if gateHeld && !outer.desperate {
        return Returned(ServeWithinCeiling(cfg, Data(), now));
      }
      if gateHeld {
        AwaitGate(later);
      }
      gateHeld := true;
      var early := CheckUnderGate(now, outer.desperate);
      if early.Some? {
        gateHeld := false;
        return Returned(early.value);
      }
      var fetch := fetcher.Get();
      if fetch.FetchPanics? {
        gateHeld := false;
        return Panicked;
      }
      var fetched: Result<JwkSet, Error>;
      match fetch {
        case Body(doc) => fetched := Parse(doc);
        case TransportError => fetched := Err(FetchFailed);
      }
      var served := Settle(now, fetched);
      gateHeld := false;
      return Returned(served);
    }

    /** The second half of `with_key`, after a first lookup that matched no key; it never waits. */
    method Rotate<T>(kid: string, now: Instant, check: Jwk -> Result<T, Error>) returns (outcome: Outcome<T>)
      modifies this, fetcher
      ensures gateHeld == old(gateHeld)
      ensures var a := if old(gateHeld) then LookupAgain(RefreshMeanwhile(cfg, old(Data()), now), kid, check)
                       else RotateAlone(cfg, old(Data()), kid, now, check, fetcher.script(old(fetcher.calls)));
              && Data() == a.inner
              && outcome == a.outcome
              && fetcher.calls == old(fetcher.calls) + a.fetches
    {
      hide RefreshAlone, RefreshMeanwhile, TryAll;
      var r := Refresh(now, false, Data());
      if r.Panicked? {
        return Panicked;
      }
      if r.result.Err? {
        return Returned(Err(r.result.error));
      }
      if r.result.value.Some? {
        var found := RunTryAll(r.result.value.value, kid, check);
        if found.Some? {
          return Returned(found.value);
        }
      }
      return Returned(Err(UnknownKid));
    }

    /** `with_key`, with the gate free or held; `later` is what a call finds that has to wait for it. */
    method WithKey<T>(kid: string, now: Instant, check: Jwk -> Result<T, Error>, later: Inner<JwkSet>)
        returns (outcome: Outcome<T>)
      modifies this, fetcher
      ensures gateHeld == (old(gateHeld) && !NothingToServe(cfg, old(Data()), now))
      ensures var a := WithKeyAt(cfg, old(GateFor(later)), old(Data()), kid, now, check,
                                 fetcher.script, old(fetcher.calls));
              && Data() == a.inner
              && outcome == a.outcome
              && fetcher.calls == old(fetcher.calls) + a.fetches
    {
      hide RefreshAlone, RefreshWaited, RotateAlone, TryAll, PastCeiling, Stale;
      var cached, stale, expired := TakeSnapshot(now);
      if expired {
        cached := None;
      }
      assert (cached.None? || stale) == Snapshot(cfg, Data(), now).refresh;
      assert cached.None? == NothingToServe(cfg, Data(), now) && (cached.Some? ==> cached == Data().keys);
      assert cached.Some? ==> ServeWithinCeiling(cfg, Data(), now) == Ok(cached);
      hide Snapshot, NothingToServe, ServeWithinCeiling;
      if cached.None? || stale {
        var r := Refresh(now, cached.None?, later);
        if r.Panicked? {
          return Panicked;
        }
        if r.result.Err? {
          return Returned(Err(r.result.error));
        }
        cached := r.result.value;
      }
      if cached.None? {
        return Returned(Err(NothingFetched));
      }
      var found := RunTryAll(cached.value, kid, check);
      if found.Some? {
        return Returned(found.value);
      }
      outcome := Rotate(kid, now, check);
    }
  }

  // ----- what the specification means -----

  ghost predicate Known(keys: Option<JwkSet>, kid: string) {
    keys.Some? && exists k :: k in keys.value.keys && (k.kid == Some(kid) || (k.kid == None && kid == ""))
  }

  /** The data is well formed: a fetch time exactly when there are keys. */
  predicate Stamped(inner: Inner<JwkSet>) {
    inner.keys.Some? <==> inner.fetchedAt.Some?
  }

  lemma AloneKeepsStamped<T>(cfg: Config, inner: Inner<JwkSet>, kid: string, now: Instant,
                             check: Jwk -> Result<T, Error>, script: nat -> Fetch, from: nat)
    requires Stamped(inner)
    ensures Stamped(WithKeyAlone(cfg, inner, kid, now, check, script, from).inner)
  {
  }

  /**
   With a positive interval a call fetches once exactly when the last attempt is an interval ago and either the cache
   was cold, or its keys a TTL old, or none of them has the `kid`; otherwise not at all. So a known `kid` whose keys
   all fail the check causes no rotation fetch.
   */
  lemma FetchesExactlyWhen<T>(cfg: Config, inner: Inner<JwkSet>, kid: string, now: Instant,
                              check: Jwk -> Result<T, Error>, script: nat -> Fetch, from: nat)
    requires cfg.minRefetch > 0 && Stamped(inner)
    ensures WithKeyAlone(cfg, inner, kid, now, check, script, from).fetches
         == Count(&& (inner.lastAttempt.Some? ==> now - inner.lastAttempt.value >= cfg.minRefetch)
                  && (inner.keys.Some? ==> AgedBy(cfg.ttl, inner, now) || !Known(inner.keys, kid)))
  {
    CeilingCoversTtl(cfg);
    if inner.keys.Some? {
      TryAllSucceeds(inner.keys.value, kid, check);
    }
  }

  /** The keys were fetched at least `d` before `now`; always so for `d` zero. */
  predicate AgedBy(d: nat, inner: Inner<JwkSet>, now: Instant)
    requires Stamped(inner) && inner.keys.Some?
  {
    d == 0 || now - inner.fetchedAt.value >= d
  }

  /**
   With interval zero a call fetches once to open if the cache is cold or its keys a TTL old, and once more exactly
   when it gets keys to open with, fetched or left from before, and none of them has the `kid`.
   */
  lemma FetchesWithoutInterval<T>(cfg: Config, inner: Inner<JwkSet>, kid: string, now: Instant,
                                  check: Jwk -> Result<T, Error>, script: nat -> Fetch, from: nat)
    requires cfg.minRefetch == 0 && Stamped(inner)
    ensures var needed := inner.keys.Some? ==> AgedBy(cfg.ttl, inner, now);
            var opening := if !needed then inner.keys
                           else match Received(script(from))
                             case Some(Ok(jwks)) => Some(jwks)
                             case Some(Err(_)) => if PastCeiling(cfg, inner, now) then None else inner.keys
                             case None => None;
            WithKeyAlone(cfg, inner, kid, now, check, script, from).fetches
            == Count(needed) + Count(opening.Some? && !Known(opening, kid))
  {
    CeilingCoversTtl(cfg);
    var first := Opening(cfg, inner, now, script(from));
    if Gives(first) {
      TryAllSucceeds(first.outcome.result.value.value, kid, check);
    }
  }

  /** A call is unwound exactly by a panic of the fetcher in a fetch it made itself, which is then its last. */
  lemma PanicsExactlyWhen<T>(cfg: Config, gate: Gate, inner: Inner<JwkSet>, kid: string, now: Instant,
                             check: Jwk -> Result<T, Error>, script: nat -> Fetch, from: nat)
    ensures var a := WithKeyAt(cfg, gate, inner, kid, now, check, script, from);
            a.outcome == Panicked <==> a.fetches > 0 && script(from + a.fetches - 1) == FetchPanics
  {
    hide TryAll, PastCeiling, PermitsAttempt, Stale;
  }

  /**
   What a call with nothing to serve ends with when its fetch brings nothing: the error of that very fetch if it was
   permitted one; otherwise the ceiling error if there are keys, and the want of keys if there are none.
   */
  lemma NothingToServeEnds<T>(cfg: Config, inner: Inner<JwkSet>, kid: string, now: Instant,
                              check: Jwk -> Result<T, Error>, script: nat -> Fetch, from: nat)
    requires Stamped(inner) && NothingToServe(cfg, inner, now)
    ensures var outcome := WithKeyAlone(cfg, inner, kid, now, check, script, from).outcome;
            if !PermitsAttempt(cfg, inner, now) then
              outcome == Returned(Err(if inner.keys.Some? then StaleKeys else NothingFetched))
            else
              match script(from)
              case TransportError => outcome == Returned(Err(FetchFailed))
              case FetchPanics => outcome == Panicked
              case Body(doc) => Parse(doc).Err? ==> outcome == Returned(Err(Parse(doc).error))
  {
    CeilingCoversTtl(cfg);
  }

  ghost predicate Down(script: nat -> Fetch, from: nat) {
    forall n :: n >= from ==> Received(script(n)).Some? && Received(script(n)).value.Err?
  }

  /**
   While the provider is down, the answer depends on the cached keys alone: within the ceiling they are looked
   up as if nothing were wrong; past it, or without keys, every call fails. The cached keys stay as they are.
   */
  lemma OutageServesUntilTheCeiling<T>(cfg: Config, inner: Inner<JwkSet>, kid: string, now: Instant,
                                       check: Jwk -> Result<T, Error>, script: nat -> Fetch, from: nat)
    requires Stamped(inner) && Down(script, from)
    ensures var a := WithKeyAlone(cfg, inner, kid, now, check, script, from);
            && a.inner.keys == inner.keys && a.inner.fetchedAt == inner.fetchedAt
            && (if NothingToServe(cfg, inner, now) then a.outcome.Returned? && a.outcome.result.Err?
                else a.outcome == AnswerFrom(inner.keys.value, kid, check))
  {
    CeilingCoversTtl(cfg);
    assert Received(script(from)).Some? && Received(script(from)).value.Err?;
    assert Received(script(from + 1)).Some? && Received(script(from + 1)).value.Err?;
  }

  /** The set came out of one of the fetches a call made: its first, or its second if it made two. */
  predicate FetchedNow(jwks: JwkSet, fetches: nat, script: nat -> Fetch, from: nat) {
    || (fetches >= 1 && Received(script(from)) == Some(Ok(jwks)))
    || (fetches >= 2 && Received(script(from + 1)) == Some(Ok(jwks)))
  }

  /** The data a call finds behind the gate it had to wait for is well formed too. */
  predicate GateStamped(gate: Gate) {
    gate.Busy? ==> Stamped(gate.later)
  }

  /** The call had nothing to serve, waited for somebody else, and found this set within its ceiling. */
  predicate TakenOver(cfg: Config, gate: Gate, inner: Inner<JwkSet>, now: Instant, jwks: JwkSet) {
    && gate.Busy? && NothingToServe(cfg, inner, now)
    && gate.later.keys == Some(jwks) && !PastCeiling(cfg, gate.later, now)
  }

  /** How a call at this gate gets the keys of its first lookup. */
  function FirstKeys(cfg: Config, gate: Gate, inner: Inner<JwkSet>, now: Instant, fetch: Fetch): Refreshed {
    if gate.Free? then Opening(cfg, inner, now, fetch) else RefreshWaited(cfg, gate.later, now, fetch)
  }

  lemma FirstKeysComeFrom(cfg: Config, gate: Gate, inner: Inner<JwkSet>, now: Instant, fetch: Fetch)
    requires Stamped(inner) && GateStamped(gate) && (gate.Busy? ==> NothingToServe(cfg, inner, now))
    requires Gives(FirstKeys(cfg, gate, inner, now, fetch))
    ensures var r := FirstKeys(cfg, gate, inner, now, fetch);
            && r.inner.keys == Some(r.outcome.result.value.value)
            && var jwks := r.inner.keys.value;
               || (inner.keys == Some(jwks) && !PastCeiling(cfg, inner, now))
               || TakenOver(cfg, gate, inner, now, jwks)
               || (r.fetched && Received(fetch) == Some(Ok(jwks)))
  {
    CeilingCoversTtl(cfg);
  }

  /** The keys of a successful lookup are those of the opening, or the rotation fetch brought them. */
  lemma LaterKeysComeFrom<T>(cfg: Config, first: Refreshed, kid: string, now: Instant,
                             check: Jwk -> Result<T, Error>, fetch: Fetch) returns (jwks: JwkSet)
    requires Gives(first) ==> first.inner.keys == Some(first.outcome.result.value.value)
    requires var a := AfterOpening(cfg, first, kid, now, check, fetch); a.outcome.Returned? && a.outcome.result.Ok?
    ensures TryAll(jwks, kid, check).Some? && TryAll(jwks, kid, check).value.Ok? && Gives(first)
    ensures AfterOpening(cfg, first, kid, now, check, fetch).fetches >= Count(first.fetched)
    ensures || first.inner.keys == Some(jwks)
            || (Received(fetch) == Some(Ok(jwks))
                && AfterOpening(cfg, first, kid, now, check, fetch).fetches == Count(first.fetched) + 1)
  {
    hide TryAll, PermitsAttempt, PastCeiling, Received;
    jwks := first.inner.keys.value;
    if TryAll(jwks, kid, check).None? {
      var again := RefreshAlone(cfg, first.inner, now, fetch);
      jwks := again.outcome.result.value.value;
      assert first.inner.keys == Some(jwks) || (again.fetched && Received(fetch) == Some(Ok(jwks)));
      hide RefreshAlone;
    }
  }

  /**
   A successful call found an accepted key in the cached set, within the ceiling, or in a set that one of its own
   fetches brought, or, having had to wait, in the set it found then, within the ceiling.
   */
  lemma SuccessComesFrom<T>(cfg: Config, gate: Gate, inner: Inner<JwkSet>, kid: string, now: Instant,
                            check: Jwk -> Result<T, Error>, script: nat -> Fetch, from: nat)
      returns (jwks: JwkSet, key: Jwk)
    requires Stamped(inner) && GateStamped(gate)
    requires var a := WithKeyAt(cfg, gate, inner, kid, now, check, script, from);
             a.outcome.Returned? && a.outcome.result.Ok?
    ensures key in jwks.keys && Matches(key, kid) && check(key).Ok?
    ensures || (inner.keys == Some(jwks) && !PastCeiling(cfg, inner, now))
            || TakenOver(cfg, gate, inner, now, jwks)
            || FetchedNow(jwks, WithKeyAt(cfg, gate, inner, kid, now, check, script, from).fetches, script, from)
  {
    hide TryAll, Opening, RefreshWaited, AfterOpening, Received, PastCeiling;
    if gate.Busy? && !NothingToServe(cfg, inner, now) {
      jwks := inner.keys.value;
    } else {
      var first := FirstKeys(cfg, gate, inner, now, script(from));
      if Gives(first) {
        FirstKeysComeFrom(cfg, gate, inner, now, script(from));
      }
      jwks := LaterKeysComeFrom(cfg, first, kid, now, check, script(from + Count(first.fetched)));
    }
    TryAllSucceeds(jwks, kid, check);
    key :| key in jwks.keys && Matches(key, kid) && check(key).Ok?;
  }
}
