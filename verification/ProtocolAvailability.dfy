/** Availability: a call that has usable keys when it begins is answered from keys, whatever else goes on. */
module ProtocolAvailability {
  import opened Prelude
  import opened Jwks
  import opened KeyLookup
  import opened CachePolicy
  import opened CacheProtocol
  import opened ProtocolInvariant
  import opened ProtocolWaiting

  /** Where a call can stand that has had keys within its ceiling all along. */
  ghost predicate OnTheWay(c: Call) {
    || c.past.uses != []
    || (c.pc.Outer? && !c.pc.wait)
    || (c.pc.TryGate? && !c.pc.desperate)
    || c.pc.LostRace?
    || (c.pc.UnderGate? && !c.pc.desperate)
    || c.pc.Fetching?
    || c.pc.Settling?
    || (c.pc.Releasing? && c.pc.served.Ok? && c.pc.served.value.Some?)
    || c.pc.Lookup?
    || ((c.pc.Unwinding? || c.pc == Done(Panicked)) && First in c.past.fetches)
  }

  /** The call found keys within its ceiling when it began. */
  ghost predicate FoundKeys(cfg: Config, c: Call) {
    c.past.began.Some? && !NothingToServe(cfg, c.past.began.value.inner, c.job.now)
  }

  /**
   The set a call would have been served from when it began is still served to it, or a later one is; and if that
   set was fresh the call goes straight to its lookup.
   */
  ghost predicate Covered(cfg: Config, w: World, c: Call) {
    FoundKeys(cfg, c) ==>
      && c.past.began.value.inner.fetchedAt.Some?
      && 0 < c.past.began.value.installed <= |w.installs|
      && Elapsed(c.job.now, w.installs[c.past.began.value.installed - 1].at) < cfg.MaxStale()
      && OnTheWay(c)
      && (!NeededRefresh(cfg, c.job, c.past) ==> c.past.uses != [] || c.pc.Lookup?)
  }

  /**
   When keys once usable cannot be lost to a call: the interval keeps later sets from having earlier fetch times;
   or the ceiling is the TTL itself, which takes the longest TTL there is, and then usable keys are fresh.
   */
  predicate KeepsKeys(cfg: Config) {
    cfg.minRefetch > 0 || cfg.MaxStale() == cfg.ttl
  }

  /** A set within the ceiling of a call stays served to it: later sets have later fetch times. */
  lemma StillServed(cfg: Config, w: World, now: Instant, i: nat)
    requires WorldOk(cfg, w) && cfg.minRefetch > 0 && i < |w.installs|
    requires Elapsed(now, w.installs[i].at) < cfg.MaxStale()
    ensures !NothingToServe(cfg, w.inner, now)
  {
    InstallTimesRise(cfg, w, i, |w.installs| - 1);
  }

  /** The call fetches in its first round, or has looked keys up before. */
  ghost predicate FirstOrLater(c: Call) {
    c.pc.Fetching? ==> c.past.uses != [] || First in c.past.fetches
  }

  lemma OnTheWayMove(cfg: Config, s: State, l: Label)
    requires Enabled(s, l.id) && !s.calls[l.id].pc.Start? && OnTheWay(s.calls[l.id]) && FirstOrLater(s.calls[l.id])
    requires !NothingToServe(cfg, s.world.inner, s.calls[l.id].job.now)
    ensures OnTheWay(Advance(cfg, s, l).call)
  {
    hide TryAll, Parse, Snapshot, PermitsAttempt, PastCeiling;
  }

  lemma BeganKept(cfg: Config, s: State, l: Label)
    requires Enabled(s, l.id) && !s.calls[l.id].pc.Start?
    ensures Advance(cfg, s, l).call.past.began == s.calls[l.id].past.began
    ensures Advance(cfg, s, l).call.job == s.calls[l.id].job
  {
    hide TryAll, Parse, OuterCheck, GateCheck, Snapshot, AfterRefresh;
  }

  lemma UsableIsFresh(cfg: Config, c: Call)
    requires FoundKeys(cfg, c) && c.past.began.value.inner.fetchedAt.Some?
    ensures cfg.MaxStale() == cfg.ttl ==> !NeededRefresh(cfg, c.job, c.past)
  {
  }

  lemma LookedUp(cfg: Config, s: State, l: Label)
    requires Enabled(s, l.id) && (s.calls[l.id].past.uses != [] || s.calls[l.id].pc.Lookup?)
    ensures Advance(cfg, s, l).call.past.uses != []
  {
    hide TryAll, Parse, OuterCheck, GateCheck, Snapshot, AfterRefresh;
  }

  lemma CoveredMove(cfg: Config, s: State, l: Label)
    requires Enabled(s, l.id) && Local(cfg, s.world, l.id, s.calls[l.id]) && KeepsKeys(cfg)
    requires !s.calls[l.id].pc.Start? && Covered(cfg, s.world, s.calls[l.id])
    requires s.world.installs <= Advance(cfg, s, l).world.installs
    ensures Covered(cfg, Advance(cfg, s, l).world, Advance(cfg, s, l).call)
  {
    var w, c := s.world, s.calls[l.id];
    BeganKept(cfg, s, l);
    assert FirstOrLater(c);
    if FoundKeys(cfg, c) {
      if c.past.uses != [] || c.pc.Lookup? {
        LookedUp(cfg, s, l);
      } else {
        UsableIsFresh(cfg, c);
        hide Local, FirstOrLater, OnTheWay, NothingToServe, Advance, PastCeiling, Snapshot;
        LocalWorld(cfg, w, l.id, c);
        StillServed(cfg, w, c.job.now, c.past.began.value.installed - 1);
        OnTheWayMove(cfg, s, l);
      }
    }
    hide Local, FirstOrLater, NothingToServe, Advance, PastCeiling, Snapshot;
  }

  lemma LocalWorld(cfg: Config, w: World, id: nat, c: Call)
    requires Local(cfg, w, id, c)
    ensures WorldOk(cfg, w)
  {
  }

  lemma CoveredStart(cfg: Config, s: State, l: Label)
    requires Enabled(s, l.id) && Local(cfg, s.world, l.id, s.calls[l.id]) && s.calls[l.id].pc.Start?
    ensures Covered(cfg, Advance(cfg, s, l).world, Advance(cfg, s, l).call)
  {
    hide InstallsOk, Spaced;
  }

  ghost predicate AllCovered(cfg: Config, s: State) {
    forall i :: 0 <= i < |s.calls| ==> Covered(cfg, s.world, s.calls[i])
  }

  lemma CoveredStep(cfg: Config, s: State, l: Label)
    requires Inv(cfg, s) && Enabled(s, l.id) && KeepsKeys(cfg) && AllCovered(cfg, s)
    ensures AllCovered(cfg, Step(cfg, s, l))
  {
    AdvanceGrows(cfg, s, l);
    InvLocal(cfg, s, l.id);
    if s.calls[l.id].pc.Start? {
      CoveredStart(cfg, s, l);
    } else {
      CoveredMove(cfg, s, l);
    }
    OthersCovered(cfg, s, l.id, Advance(cfg, s, l));
  }

  lemma OthersCovered(cfg: Config, s: State, id: nat, m: Move)
    requires AllCovered(cfg, s) && id < |s.calls| && s.world.installs <= m.world.installs
    requires Covered(cfg, m.world, m.call)
    ensures AllCovered(cfg, State(m.world, s.calls[id := m.call]))
  {
    hide NothingToServe, OnTheWay, Elapsed;
  }

  lemma {:induction false} RunCovered(cfg: Config, states: seq<State>, labels: seq<Label>, k: nat)
    requires Run(cfg, states, labels) && k < |states| && KeepsKeys(cfg)
    ensures AllCovered(cfg, states[k])
    decreases k
  {
    hide Run, Inv, Step, Covered;
    if k == 0 {
      RunStarts(cfg, states, labels);
      NoneBegan(cfg, states[0]);
    } else {
      RunSteps(cfg, states, labels, k);
      RunCovered(cfg, states, labels, k - 1);
      RunInv(cfg, states, labels, k - 1);
      CoveredStep(cfg, states[k - 1], labels[k - 1]);
    }
  }

  lemma NoneBegan(cfg: Config, s: State)
    requires Initial(s)
    ensures AllCovered(cfg, s)
  {
  }

  /**
   A call that found keys within its ceiling when it began never waits, in any run: not for the gate, and so not
   for the fetch of anybody else. With a positive interval it is never refused for want of keys either: when it has
   finished it has looked its keys up, unless it fetched itself and the fetcher panicked.
   */
  lemma UsableKeysAreServed(cfg: Config, states: seq<State>, labels: seq<Label>, k: nat, id: nat)
    requires Run(cfg, states, labels) && k < |states| && id < |states[k].calls| && FoundKeys(cfg, states[k].calls[id])
    ensures !states[k].calls[id].pc.WaitGate?
    ensures KeepsKeys(cfg) && states[k].calls[id].pc.Done? ==>
              || states[k].calls[id].past.uses != []
              || (states[k].calls[id].pc == Done(Panicked) && First in states[k].calls[id].past.fetches)
  {
    RunCallOk(cfg, states, labels, k, id);
    if KeepsKeys(cfg) {
      RunCovered(cfg, states, labels, k);
      assert Covered(cfg, states[k].world, states[k].calls[id]);
    }
    hide Run;
  }

  // ----- calls whose key is published throughout -----

  /** A first lookup that answers ends the call, with that answer unless the check panics. */
  ghost predicate FirstAnswerCounts(c: Call) {
    c.past.uses != [] ==>
      var answer := TryAll(c.past.uses[0].jwks, c.job.kid, c.job.check);
      answer.Some? ==> c.pc == Done(Panicked) || c.pc == Done(Returned(answer.value))
  }

  lemma FirstAnswerMove(cfg: Config, s: State, l: Label)
    requires Enabled(s, l.id) && Local(cfg, s.world, l.id, s.calls[l.id]) && FirstAnswerCounts(s.calls[l.id])
    ensures FirstAnswerCounts(Advance(cfg, s, l).call)
  {
    hide TryAll, Parse, OuterCheck, GateCheck, Snapshot, AfterRefresh, WorldOk, UsesOk, FetchesOk, Servable, ServedOk,
      NeededRefresh, NotOlder, Desperate, FallBack, ServeWithinCeiling;
  }

  lemma {:induction false} RunFirstAnswer(cfg: Config, states: seq<State>, labels: seq<Label>, k: nat, id: nat)
    requires Run(cfg, states, labels) && k < |states| && id < |states[k].calls|
    ensures FirstAnswerCounts(states[k].calls[id])
    decreases k
  {
    hide Run, Advance, FirstAnswerCounts, Initial, Fresh;
    if k == 0 {
      RunStarts(cfg, states, labels);
      NothingUsed(states[0], id);
    } else {
      RunSteps(cfg, states, labels, k);
      RunFirstAnswer(cfg, states, labels, k - 1, id);
      if labels[k - 1].id == id {
        RunCallOk(cfg, states, labels, k - 1, id);
        FirstAnswerMove(cfg, states[k - 1], labels[k - 1]);
      }
    }
  }

  lemma NothingUsed(s: State, id: nat)
    requires Initial(s) && id < |s.calls|
    ensures FirstAnswerCounts(s.calls[id])
  {
  }

  /** The set has a key of the call's `kid` that its check accepts. */
  ghost predicate Accepts(jwks: JwkSet, job: Job) {
    exists key :: key in jwks.keys && Matches(key, job.kid) && job.check(key).Ok?
  }

  /** Every set installed from the one on that was cached when the call began has an accepted key for it. */
  ghost predicate PublishedThroughout(w: World, c: Call)
    requires c.past.began.Some?
  {
    forall i :: 0 <= i < |w.installs| && c.past.began.value.installed <= i + 1 ==> Accepts(w.installs[i].jwks, c.job)
  }

  /**
   With a positive interval, in any run: a call that found usable keys, and whose key is in every set installed since,
   succeeds. Nothing the provider or the other calls do can make it fail, short of a panic.
   */
  lemma PublishedKeysSucceed(cfg: Config, states: seq<State>, labels: seq<Label>, k: nat, id: nat)
    requires Run(cfg, states, labels) && k < |states| && id < |states[k].calls| && KeepsKeys(cfg)
    requires FoundKeys(cfg, states[k].calls[id]) && PublishedThroughout(states[k].world, states[k].calls[id])
    requires states[k].calls[id].pc.Done?
    ensures states[k].calls[id].pc == Done(Returned(Ok(()))) || states[k].calls[id].pc == Done(Panicked)
  {
    UsableKeysAreServed(cfg, states, labels, k, id);
    RunFirstAnswer(cfg, states, labels, k, id);
    RunCallOk(cfg, states, labels, k, id);
    hide Run;
    var c := states[k].calls[id];
    if c.past.uses != [] {
      var used := c.past.uses[0];
      assert Servable(cfg, states[k].world.installs, c.job, c.past, used);
      assert Accepts(states[k].world.installs[used.id].jwks, c.job);
      TryAllSucceeds(used.jwks, c.job.kid, c.job.check);
      var answer := TryAll(used.jwks, c.job.kid, c.job.check).value;
      assert answer.Ok? && answer.value == () && answer == Ok(());
    }
    hide TryAll, Local;
  }
}
