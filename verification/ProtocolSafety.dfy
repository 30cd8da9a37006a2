/** What the invariant of the cache protocol gives for every run: any number of calls, any schedule, any clocks. */
module ProtocolSafety {
  import opened Prelude
  import opened Jwks
  import opened KeyLookup
  import opened CachePolicy
  import opened CacheProtocol
  import opened ProtocolInvariant

  // ----- the staleness ceiling -----

  /**
   No lookup of any call ever runs against a key set whose fetch is `max_stale` or more before that call's own
   `now`: such a set is less than a day old, or less than 24 TTLs old. And every set a lookup runs against was
   installed by a successful, non-empty fetch.
   */
  lemma CeilingHolds(cfg: Config, states: seq<State>, labels: seq<Label>, k: nat, id: nat, n: nat)
    requires Run(cfg, states, labels) && k < |states| && id < |states[k].calls|
    requires n < |states[k].calls[id].past.uses|
    ensures var used := states[k].calls[id].past.uses[n];
            var installs := states[k].world.installs;
            && used.id < |installs|
            && used.jwks == installs[used.id].jwks
            && used.jwks.keys != []
            && Elapsed(states[k].calls[id].job.now, installs[used.id].at) < cfg.MaxStale()
            && var age := states[k].calls[id].job.now - installs[used.id].at;
               || age < 86_400_000_000_000
               || (age < 24 * cfg.ttl && age < 18_446_744_073_709_551_615_999_999_999)
  {
    RunInv(cfg, states, labels, k);
  }

  /** A call that returns success found a key of its own `kid`, within the ceiling, that its check accepted. */
  lemma SuccessIsJustified(cfg: Config, states: seq<State>, labels: seq<Label>, k: nat, id: nat)
      returns (used: Arc, key: Jwk)
    requires Run(cfg, states, labels) && k < |states| && id < |states[k].calls|
    requires states[k].calls[id].pc == Done(Returned(Ok(())))
    ensures var job := states[k].calls[id].job;
            && used in states[k].calls[id].past.uses
            && used.id < |states[k].world.installs|
            && used.jwks == states[k].world.installs[used.id].jwks
            && Elapsed(job.now, states[k].world.installs[used.id].at) < cfg.MaxStale()
            && key in used.jwks.keys
            && Matches(key, job.kid)
            && job.check(key).Ok?
  {
    RunCallOk(cfg, states, labels, k, id);
    var c := states[k].calls[id];
    hide Run;
    used := c.past.uses[|c.past.uses| - 1];
    TryAllSucceeds(used.jwks, c.job.kid, c.job.check);
    key :| key in used.jwks.keys && Matches(key, c.job.kid) && c.job.check(key).Ok?;
  }

  // ----- the rate of fetches -----

  /** With a positive interval the attempts are spread out: any two lie their distance in intervals apart. */
  lemma {:induction false} AttemptsSpread(cfg: Config, claims: seq<Claim>, j: nat, k: nat)
    requires Spaced(cfg, claims) && cfg.minRefetch > 0
    requires j <= k < |claims|
    ensures claims[k].now - claims[j].now >= (k - j) * cfg.minRefetch
    decreases k
  {
    if j < k {
      AttemptsSpread(cfg, claims, j, k - 1);
      assert Elapsed(claims[k].now, claims[k - 1].now) >= cfg.minRefetch;
      assert (k - j) * cfg.minRefetch == (k - 1 - j) * cfg.minRefetch + cfg.minRefetch;
    }
  }

  lemma {:induction false} AttemptsRise(cfg: Config, claims: seq<Claim>, j: nat, k: nat)
    requires Spaced(cfg, claims) && cfg.minRefetch > 0
    requires j <= k < |claims|
    ensures claims[j].now <= claims[k].now
    decreases k
  {
    if j < k {
      AttemptsRise(cfg, claims, j, k - 1);
      assert Elapsed(claims[k].now, claims[k - 1].now) >= cfg.minRefetch;
    }
  }

  /** How many attempts were claimed with a clock reading in `[a, b]`. */
  function AttemptsIn(claims: seq<Claim>, a: Instant, b: Instant): nat {
    if claims == [] then 0
    else
      var last := |claims| - 1;
      AttemptsIn(claims[..last], a, b) + (if a <= claims[last].now <= b then 1 else 0)
  }

  lemma OneMoreInterval(n: nat, d: nat)
    ensures n * d == (n - 1) * d + d
  {
  }

  lemma {:induction false} NewestIsFarAlong(cfg: Config, claims: seq<Claim>, a: Instant, b: Instant)
    requires Spaced(cfg, claims) && cfg.minRefetch > 0
    requires AttemptsIn(claims, a, b) > 0
    ensures claims != [] && claims[|claims| - 1].now >= a + (AttemptsIn(claims, a, b) - 1) * cfg.minRefetch
  {
    var last := |claims| - 1;
    var before := claims[..last];
    var n := AttemptsIn(before, a, b);
    if n > 0 {
      NewestIsFarAlong(cfg, before, a, b);
      assert Elapsed(claims[last].now, claims[last - 1].now) >= cfg.minRefetch;
      OneMoreInterval(n, cfg.minRefetch);
    }
  }

  lemma {:induction false} SpacedIsSparse(cfg: Config, claims: seq<Claim>, a: Instant, b: Instant)
    requires Spaced(cfg, claims) && cfg.minRefetch > 0 && a <= b
    ensures AttemptsIn(claims, a, b) <= (b - a) / cfg.minRefetch + 1
  {
    if AttemptsIn(claims, a, b) > 0 {
      var last := |claims| - 1;
      if a <= claims[last].now <= b {
        NewestIsFarAlong(cfg, claims, a, b);
        Quotient(AttemptsIn(claims, a, b) - 1, cfg.minRefetch, b - a);
      } else {
        SpacedIsSparse(cfg, claims[..last], a, b);
      }
    }
  }

  lemma ProductOrder(a: nat, b: nat, d: nat)
    ensures a <= b ==> a * d <= b * d
  {
  }

  lemma Quotient(n: nat, d: nat, x: nat)
    requires d > 0 && n * d <= x
    ensures n <= x / d
  {
    ProductOrder(x / d + 1, n, d);
  }

  /**
   In every run, calls with clock readings in `[a, b]` cause at most `(b - a) / interval + 1` fetches together,
   whatever triggered them and however they ended; and the readings of successive attempts strictly increase,
   by the interval at least.
   */
  lemma FetchRateBound(cfg: Config, states: seq<State>, labels: seq<Label>, k: nat, a: Instant, b: Instant)
    requires Run(cfg, states, labels) && k < |states| && cfg.minRefetch > 0 && a <= b
    ensures AttemptsIn(states[k].world.claims, a, b) <= (b - a) / cfg.minRefetch + 1
    ensures forall n :: 0 < n < |states[k].world.claims| ==>
              states[k].world.claims[n].now >= states[k].world.claims[n - 1].now + cfg.minRefetch
  {
    RunInv(cfg, states, labels, k);
    var claims := states[k].world.claims;
    SpacedIsSparse(cfg, claims, a, b);
    forall n | 0 < n < |claims|
      ensures claims[n].now >= claims[n - 1].now + cfg.minRefetch
    {
      AttemptsSpread(cfg, claims, n - 1, n);
    }
  }

  /**
   One call fetches at most twice, and at most once when the interval is positive; the log of attempts holds
   exactly the fetches of the calls. A fetch of the first round means the call found the cache cold, stale or
   past the ceiling when it began; one of the second round means its first lookup matched no key.
   */
  lemma FetchesPerCall(cfg: Config, states: seq<State>, labels: seq<Label>, k: nat, id: nat)
    requires Run(cfg, states, labels) && k < |states| && id < |states[k].calls|
    ensures var c := states[k].calls[id];
            && ClaimsOf(states[k].world.claims, id) == c.past.fetches
            && |c.past.fetches| <= 2
            && (cfg.minRefetch > 0 ==> |c.past.fetches| <= 1)
            && (First in c.past.fetches ==>
                  c.past.began.Some? && Snapshot(cfg, c.past.began.value.inner, c.job.now).refresh)
            && (Second in c.past.fetches ==>
                  c.past.uses != [] && forall key :: key in c.past.uses[0].jwks.keys ==> !Matches(key, c.job.kid))
  {
    RunInv(cfg, states, labels, k);
    var c := states[k].calls[id];
    assert CallOk(cfg, states[k].world, c);
    if Second in c.past.fetches {
      MatchingMembers(c.past.uses[0].jwks.keys, c.job.kid);
    }
  }

  // ----- the shared data -----

  /** At most one call is between taking the gate and giving it back, and no lookup runs under the gate. */
  lemma GateIsExclusive(cfg: Config, states: seq<State>, labels: seq<Label>, k: nat, i: nat, j: nat)
    requires Run(cfg, states, labels) && k < |states| && i < |states[k].calls| && j < |states[k].calls|
    requires HoldsGate(states[k].calls[i].pc)
    ensures HoldsGate(states[k].calls[j].pc) ==> i == j
    ensures states[k].world.holder == Some(i)
    ensures states[k].calls[j].pc.Lookup? || states[k].calls[j].pc.WaitGate? ==> states[k].world.holder != Some(j)
  {
    RunInv(cfg, states, labels, k);
  }

  lemma FetchTimeBeforeAnchor(cfg: Config, w: World)
    requires WorldOk(cfg, w) && w.inner.keys.Some? && cfg.minRefetch > 0
    ensures w.inner.fetchedAt.value <= w.inner.lastAttempt.value
  {
    AttemptsRise(cfg, w.claims, w.installs[|w.installs| - 1].claim, |w.claims| - 1);
  }

  /**
   The data in every reachable state: keys exactly when there is a fetch time, both from the newest installed
   set, which is never empty; keys only after an attempt; with a positive interval, no fetch time is after the
   newest attempt.
   */
  lemma DataIsConsistent(cfg: Config, states: seq<State>, labels: seq<Label>, k: nat)
    requires Run(cfg, states, labels) && k < |states|
    ensures var inner := states[k].world.inner;
            && (inner.keys.Some? <==> inner.fetchedAt.Some?)
            && (inner.keys.Some? ==> inner.lastAttempt.Some? && inner.keys.value.jwks.keys != [])
            && (inner.keys.Some? && cfg.minRefetch > 0 ==> inner.fetchedAt.value <= inner.lastAttempt.value)
  {
    RunWorldOk(cfg, states, labels, k);
    var w := states[k].world;
    hide Run;
    if w.inner.keys.Some? && cfg.minRefetch > 0 {
      FetchTimeBeforeAnchor(cfg, w);
    }
    assert w.installs != [] ==> w.installs[|w.installs| - 1].claim < |w.claims|;
  }

  /** How a step may change the data, given where the moving call stands. */
  ghost predicate DataStep(before: Inner<Arc>, after: Inner<Arc>, c: Call, installed: nat) {
    && (before.lastAttempt != after.lastAttempt ==>
          c.pc.UnderGate? && after == before.(lastAttempt := Some(c.job.now)))
    && (before.keys != after.keys || before.fetchedAt != after.fetchedAt ==>
          && c.pc.Settling? && c.pc.fetched.Ok? && c.pc.fetched.value.keys != []
          && after.keys == Some(Arc(installed, c.pc.fetched.value))
          && after.fetchedAt == Some(c.job.now))
    && (before.keys.Some? ==> after.keys.Some?)
  }

  lemma StepDataStep(cfg: Config, s: State, l: Label)
    requires Enabled(s, l.id) && PcOk(cfg, s.world.installs, s.calls[l.id].job, s.calls[l.id].past, s.calls[l.id].pc)
    ensures DataStep(s.world.inner, Advance(cfg, s, l).world.inner, s.calls[l.id], |s.world.installs|)
  {
    hide TryAll, Parse, OuterCheck, Snapshot, AfterRefresh, PermitsAttempt, PastCeiling, Desperate, Before, InRound,
      Servable, ServedOk, AcceptedOk, NotOlder;
  }

  lemma HolderStep(cfg: Config, s: State, l: Label)
    requires Inv(cfg, s) && Enabled(s, l.id)
    ensures s.world.inner != Advance(cfg, s, l).world.inner ==> s.world.holder == Some(l.id)
    ensures PcOk(cfg, s.world.installs, s.calls[l.id].job, s.calls[l.id].past, s.calls[l.id].pc)
  {
    AdvanceGood(cfg, s, l);
    InvLocal(cfg, s, l.id);
    hide Inv, WorldOk, InFetchOk, Advance, LogsFollow, HolderFollows, PcOk;
  }

  /**
   What one step may do to the data: only the gate holder changes it at all, and only to claim an attempt or to
   install a fetched, non-empty set stamped with its own `now`. A failed fetch, a panic, a lookup or any other
   step leaves keys and fetch time as they are.
   */
  lemma DataChangesOnlyBySuccess(cfg: Config, states: seq<State>, labels: seq<Label>, k: nat)
    requires Run(cfg, states, labels) && k < |labels|
    ensures DataStep(states[k].world.inner, states[k + 1].world.inner, states[k].calls[labels[k].id],
                     |states[k].world.installs|)
    ensures states[k].world.inner != states[k + 1].world.inner ==> states[k].world.holder == Some(labels[k].id)
  {
    RunInv(cfg, states, labels, k);
    RunSteps(cfg, states, labels, k + 1);
    hide Run, Inv, DataStep, Advance, PcOk;
    HolderStep(cfg, states[k], labels[k]);
    StepDataStep(cfg, states[k], labels[k]);
  }

  // ----- fresh and monotone reads -----

  lemma {:induction false} InstallsGrow(cfg: Config, states: seq<State>, labels: seq<Label>, j: nat, k: nat)
    requires Run(cfg, states, labels) && j <= k < |states|
    ensures states[j].world.installs <= states[k].world.installs
    ensures |states[j].calls| == |states[k].calls|
    decreases k
  {
    hide Run, Inv, Advance;
    if j < k {
      RunSteps(cfg, states, labels, k);
      InstallsGrow(cfg, states, labels, j, k - 1);
      RunInv(cfg, states, labels, k - 1);
      AdvanceGrows(cfg, states[k - 1], labels[k - 1]);
    }
  }

  lemma OneInstallPerStep(cfg: Config, s: State, l: Label)
    requires Enabled(s, l.id)
    ensures |Step(cfg, s, l).world.installs| <= |s.world.installs| + 1
  {
    hide TryAll, Parse, OuterCheck, GateCheck, Snapshot, AfterRefresh;
  }

  /** A length the log had passed by state `k` was its exact length in some state from `j` on. */
  lemma {:induction false} LogPassedThrough(cfg: Config, states: seq<State>, labels: seq<Label>, j: nat, k: nat, n: nat)
      returns (m: nat)
    requires Run(cfg, states, labels) && j <= k < |states|
    requires |states[j].world.installs| <= n <= |states[k].world.installs|
    ensures j <= m <= k && |states[m].world.installs| == n
    decreases k
  {
    if |states[k].world.installs| == n {
      m := k;
    } else {
      OneInstallPerStep(cfg, states[k - 1], labels[k - 1]);
      m := LogPassedThrough(cfg, states, labels, j, k - 1, n);
    }
  }

  /** The state right after a call's first step, which recorded how many sets had been installed. */
  lemma {:induction false} WhenItBegan(cfg: Config, states: seq<State>, labels: seq<Label>, k: nat, id: nat)
      returns (j: nat)
    requires Run(cfg, states, labels) && k < |states| && id < |states[k].calls| && !states[k].calls[id].pc.Start?
    ensures j <= k && id < |states[j].calls| && !states[j].calls[id].pc.Start?
    ensures states[k].calls[id].past.began == Some(Began(states[j].world.inner, |states[j].world.installs|))
    ensures j > 0 && id < |states[j - 1].calls| && states[j - 1].calls[id].pc.Start?
    decreases k
  {
    assert k > 0;
    var s, l := states[k - 1], labels[k - 1];
    InstallsGrow(cfg, states, labels, k - 1, k);
    if s.calls[id].pc.Start? {
      j := k;
    } else {
      j := WhenItBegan(cfg, states, labels, k - 1, id);
      BeganIsKept(cfg, s, l, id);
    }
  }

  lemma BeganIsKept(cfg: Config, s: State, l: Label, id: nat)
    requires Enabled(s, l.id) && id < |s.calls| && !s.calls[id].pc.Start?
    ensures Step(cfg, s, l).calls[id].past.began == s.calls[id].past.began
  {
    hide TryAll, Parse, OuterCheck, GateCheck, Snapshot, AfterRefresh;
  }

  /**
   A set a call looks keys up in was the cached set in some state since the call began; it is no older than the
   set cached when the call began, and the second lookup never goes back behind the first.
   */
  lemma ReadsAreFreshAndMonotone(cfg: Config, states: seq<State>, labels: seq<Label>, k: nat, id: nat)
      returns (j: nat, m: nat)
    requires Run(cfg, states, labels) && k < |states| && id < |states[k].calls| && states[k].calls[id].pc.Lookup?
    ensures 0 < j <= m <= k && id < |states[j - 1].calls| && id < |states[j].calls|
    ensures states[j - 1].calls[id].pc.Start? && !states[j].calls[id].pc.Start?
    ensures states[m].world.inner.keys == Some(states[k].calls[id].pc.keys)
    ensures states[j].world.inner.keys.Some? ==>
              states[j].world.inner.keys.value.id <= states[k].calls[id].pc.keys.id
    ensures states[k].calls[id].past.uses != [] ==>
              states[k].calls[id].past.uses[0].id <= states[k].calls[id].pc.keys.id
  {
    hide Run, Spaced, InstallsOk, UsesOk, FetchesOk, InRound, InFetchOk;
    var c := states[k].calls[id];
    var a := c.pc.keys;
    RunCallOk(cfg, states, labels, k, id);
    j := WhenItBegan(cfg, states, labels, k, id);
    hide Local;
    m := LogPassedThrough(cfg, states, labels, j, k, a.id + 1);
    InstallsGrow(cfg, states, labels, m, k);
    InstallsGrow(cfg, states, labels, j, k);
    RunWorldOk(cfg, states, labels, j);
    RunWorldOk(cfg, states, labels, m);
  }
}
