/** No stampede: any number of calls arriving together at a cold cache cause exactly one fetch. */
module ProtocolStampede {
  import opened Prelude
  import opened Jwks
  import opened KeyLookup
  import opened CachePolicy
  import opened CacheProtocol
  import opened ProtocolInvariant

  /** The clock readings of all calls lie less than `d` apart. */
  ghost predicate Together(s: State, d: nat) {
    forall i, j :: 0 <= i < |s.calls| && 0 <= j < |s.calls| ==> Elapsed(s.calls[i].job.now, s.calls[j].job.now) < d
  }

  lemma ClaimsTogether(s: State, d: nat, k: nat)
    requires ClaimsOk(s) && Together(s, d) && 0 < k < |s.world.claims|
    ensures Elapsed(s.world.claims[k].now, s.world.claims[k - 1].now) < d
  {
    assert Elapsed(s.calls[s.world.claims[k].id].job.now, s.calls[s.world.claims[k - 1].id].job.now) < d;
  }

  lemma OneAttempt(cfg: Config, s: State)
    requires Inv(cfg, s) && Together(s, cfg.minRefetch)
    ensures |s.world.claims| <= 1
  {
    if |s.world.claims| > 1 {
      ClaimsTogether(s, cfg.minRefetch, 1);
    }
  }

  /** Each installed set used up an attempt. */
  lemma {:induction false} InstallsUseAttempts(cfg: Config, w: World, i: nat)
    requires WorldOk(cfg, w) && i < |w.installs|
    ensures i <= w.installs[i].claim < |w.claims|
    ensures |w.installs| > 0 && i == |w.installs| - 1 ==> |w.installs| <= |w.claims|
  {
    if i > 0 {
      InstallsUseAttempts(cfg, w, i - 1);
      assert w.installs[i - 1].claim < w.installs[i].claim;
    }
  }

  lemma AttemptsBoundInstalls(cfg: Config, w: World)
    requires WorldOk(cfg, w)
    ensures |w.installs| <= |w.claims|
  {
    if w.installs != [] {
      InstallsUseAttempts(cfg, w, |w.installs| - 1);
    }
  }

  lemma JobsKept(cfg: Config, s: State, l: Label, d: nat)
    requires Inv(cfg, s) && Enabled(s, l.id) && Together(s, d)
    ensures Together(Step(cfg, s, l), d)
  {
    AdvanceGood(cfg, s, l);
    var t := Step(cfg, s, l);
    hide Advance, GoodMove, Inv, Elapsed;
    assert t.calls[l.id].job == s.calls[l.id].job;
  }

  // ----- before the first attempt -----

  /** Where a call can stand while nothing has been fetched or attempted. */
  predicate ColdPc(pc: Pc) {
    pc in {Start, Outer(First, true), TryGate(First, true), WaitGate(First), UnderGate(First, true)}
  }

  ghost predicate ColdOk(s: State) {
    s.world.claims == [] ==> forall i :: 0 <= i < |s.calls| ==> ColdPc(s.calls[i].pc)
  }

  /** While no attempt has been claimed the data is empty, so a cold call stays cold or claims. */
  lemma ColdMove(cfg: Config, s: State, l: Label)
    requires Enabled(s, l.id) && ColdPc(s.calls[l.id].pc)
    requires s.world.inner == Inner(None, None, None) && s.world.claims == []
    ensures ColdPc(Advance(cfg, s, l).call.pc) || Advance(cfg, s, l).world.claims != []
  {
  }

  lemma ColdStep(cfg: Config, s: State, l: Label)
    requires Inv(cfg, s) && Enabled(s, l.id) && ColdOk(s)
    ensures ColdOk(Step(cfg, s, l))
  {
    AdvanceGood(cfg, s, l);
    var t := Step(cfg, s, l);
    if t.world.claims == [] {
      assert s.world.claims == [];
      AttemptsBoundInstalls(cfg, s.world);
      assert s.world.inner == Inner(None, None, None);
      ColdMove(cfg, s, l);
    }
  }

  // ----- while the one attempt has not failed -----

  predicate Pending(pc: Pc) {
    pc.Fetching? || (pc.Settling? && pc.fetched.Ok?)
  }

  ghost predicate NotFailed(s: State) {
    || s.world.claims == []
    || s.world.installs != []
    || (s.world.holder.Some? && s.world.holder.value < |s.calls| && Pending(s.calls[s.world.holder.value].pc))
  }

  /** The one attempt lies a ceiling or more before the reading of this call, which is told so. */
  predicate TooLate(cfg: Config, w: World, c: Call) {
    && w.claims != [] && Elapsed(c.job.now, w.claims[0].now) >= cfg.MaxStale()
    && (c.pc == Releasing(First, Err(StaleKeys)) || c.pc == Done(Returned(Err(StaleKeys))))
  }

  /** A call that has looked keys up, or is on its way to a lookup in its first round, or is too late for one. */
  predicate OnTrack(cfg: Config, w: World, c: Call) {
    || c.past.uses != []
    || TooLate(cfg, w, c)
    || c.pc.Start?
    || (c.pc.Outer? && c.pc.round == First)
    || (c.pc.TryGate? && c.pc.round == First)
    || (c.pc.LostRace? && c.pc.round == First)
    || (c.pc.WaitGate? && c.pc.round == First)
    || (c.pc.UnderGate? && c.pc.round == First)
    || (Pending(c.pc) && c.pc.round == First)
    || (c.pc.Releasing? && c.pc.round == First && c.pc.served.Ok? && c.pc.served.value.Some?)
    || (c.pc.Lookup? && c.pc.round == First)
  }

  ghost predicate AllOnTrack(cfg: Config, s: State) {
    NotFailed(s) ==> forall i :: 0 <= i < |s.calls| ==> OnTrack(cfg, s.world, s.calls[i])
  }

  /** The data while there has been one attempt at most: if it installed a set, that is the cached one. */
  ghost predicate OneSet(w: World) {
    && |w.claims| <= 1
    && (w.installs != [] ==>
          && w.claims != [] && w.inner.keys.Some?
          && w.inner.fetchedAt == Some(w.claims[0].now))
    && (w.installs == [] ==> w.inner.keys.None?)
    && (w.claims == [] ==> w.installs == [] && w.inner.lastAttempt.None?)
  }

  lemma OneSetHolds(cfg: Config, s: State)
    requires Inv(cfg, s) && Together(s, cfg.minRefetch)
    ensures OneSet(s.world)
  {
    OneAttempt(cfg, s);
  }

  /** Not having failed after a step means not having failed before it. */
  lemma FailureIsForever(cfg: Config, s: State, l: Label)
    requires Inv(cfg, s) && Enabled(s, l.id)
    requires |Step(cfg, s, l).world.claims| <= 1 && NotFailed(Step(cfg, s, l))
    ensures NotFailed(s)
  {
    AdvanceGood(cfg, s, l);
    PendingBefore(cfg, s, l);
    FailureIsForeverFor(cfg, s, l.id, Advance(cfg, s, l));
  }

  lemma FailureIsForeverFor(cfg: Config, s: State, id: nat, m: Move)
    requires GateOk(s) && id < |s.calls|
    requires HolderFollows(s.world, id, m) && s.world.claims <= m.world.claims && s.world.installs <= m.world.installs
    requires Pending(m.call.pc) ==> Pending(s.calls[id].pc) || |m.world.claims| > |s.world.claims|
    requires m.world.installs != s.world.installs ==> Pending(s.calls[id].pc)
    requires |m.world.claims| <= 1 && NotFailed(State(m.world, s.calls[id := m.call]))
    ensures NotFailed(s)
  {
  }

  lemma PendingBefore(cfg: Config, s: State, l: Label)
    requires Enabled(s, l.id)
    ensures var m, pc := Advance(cfg, s, l), s.calls[l.id].pc;
            && (Pending(m.call.pc) ==> Pending(pc) || |m.world.claims| > |s.world.claims|)
            && (m.world.installs != s.world.installs ==> Pending(pc))
  {
    hide TryAll, Parse, OuterCheck, Snapshot, PermitsAttempt, PastCeiling;
  }

  lemma TrackMove(cfg: Config, s: State, l: Label)
    requires Enabled(s, l.id) && Local(cfg, s.world, l.id, s.calls[l.id]) && OneSet(s.world)
    requires OnTrack(cfg, s.world, s.calls[l.id]) && NotFailed(s) && |Advance(cfg, s, l).world.claims| <= 1
    ensures OnTrack(cfg, Advance(cfg, s, l).world, Advance(cfg, s, l).call) || !NotFailed(Step(cfg, s, l))
  {
    hide TryAll, Parse, DataOk, Spaced, UsesOk, FetchesOk, NeededRefresh, Servable, Missed;
  }

  lemma TrackStep(cfg: Config, s: State, l: Label)
    requires Inv(cfg, s) && Enabled(s, l.id) && AllOnTrack(cfg, s) && Together(s, cfg.minRefetch)
    ensures AllOnTrack(cfg, Step(cfg, s, l))
  {
    StepKeepsInv(cfg, s, l);
    JobsKept(cfg, s, l, cfg.minRefetch);
    OneAttempt(cfg, Step(cfg, s, l));
    OneSetHolds(cfg, s);
    if NotFailed(Step(cfg, s, l)) {
      FailureIsForever(cfg, s, l);
      assert Local(cfg, s.world, l.id, s.calls[l.id]);
      TrackMove(cfg, s, l);
      AdvanceGood(cfg, s, l);
      OthersOnTrack(cfg, s, l.id, Advance(cfg, s, l));
    }
  }

  lemma OthersOnTrack(cfg: Config, s: State, id: nat, m: Move)
    requires id < |s.calls| && s.world.claims <= m.world.claims
    requires forall i :: 0 <= i < |s.calls| ==> OnTrack(cfg, s.world, s.calls[i])
    requires OnTrack(cfg, m.world, m.call)
    ensures var calls := s.calls[id := m.call]; forall i :: 0 <= i < |calls| ==> OnTrack(cfg, m.world, calls[i])
  {
  }

  // ----- runs -----

  lemma InitialTracks(cfg: Config, s: State)
    requires Initial(s)
    ensures ColdOk(s) && AllOnTrack(cfg, s)
  {
  }

  lemma {:induction false} RunTogether(cfg: Config, states: seq<State>, labels: seq<Label>, k: nat, d: nat)
    requires Run(cfg, states, labels) && k < |states| && Together(states[0], d)
    ensures Together(states[k], d)
    decreases k
  {
    hide Inv, Together, Step, Run, Enabled, Initial;
    if k > 0 {
      RunSteps(cfg, states, labels, k);
      RunTogether(cfg, states, labels, k - 1, d);
      RunInv(cfg, states, labels, k - 1);
      JobsKept(cfg, states[k - 1], labels[k - 1], d);
    }
  }

  lemma {:induction false} RunCold(cfg: Config, states: seq<State>, labels: seq<Label>, k: nat)
    requires Run(cfg, states, labels) && k < |states|
    ensures ColdOk(states[k])
    decreases k
  {
    RunStarts(cfg, states, labels);
    InitialTracks(cfg, states[0]);
    hide Inv, ColdOk, Step, Run, Enabled, Initial;
    if k > 0 {
      RunSteps(cfg, states, labels, k);
      RunCold(cfg, states, labels, k - 1);
      RunInv(cfg, states, labels, k - 1);
      ColdStep(cfg, states[k - 1], labels[k - 1]);
    }
  }

  lemma {:induction false} RunOnTrack(cfg: Config, states: seq<State>, labels: seq<Label>, k: nat)
    requires Run(cfg, states, labels) && k < |states| && Together(states[0], cfg.minRefetch)
    ensures AllOnTrack(cfg, states[k])
    decreases k
  {
    RunStarts(cfg, states, labels);
    InitialTracks(cfg, states[0]);
    hide Inv, AllOnTrack, Together, Step, Run, Enabled, Initial;
    if k > 0 {
      RunSteps(cfg, states, labels, k);
      RunOnTrack(cfg, states, labels, k - 1);
      RunInv(cfg, states, labels, k - 1);
      RunTogether(cfg, states, labels, k - 1, cfg.minRefetch);
      TrackStep(cfg, states[k - 1], labels[k - 1]);
    }
  }

  /**
   From a cold cache, calls whose clock readings lie less than one interval apart claim at most one fetch in
   total, however many they are and however they are scheduled; and no call finishes before that one.
   */
  lemma ColdStartFetchesOnce(cfg: Config, states: seq<State>, labels: seq<Label>, k: nat)
    requires Run(cfg, states, labels) && k < |states| && Together(states[0], cfg.minRefetch)
    ensures |states[k].world.claims| <= 1
    ensures forall i :: 0 <= i < |states[k].calls| && states[k].calls[i].pc.Done? ==> |states[k].world.claims| == 1
  {
    RunInv(cfg, states, labels, k);
    RunTogether(cfg, states, labels, k, cfg.minRefetch);
    OneAttempt(cfg, states[k]);
    RunCold(cfg, states, labels, k);
  }

  /**
   If that one fetch succeeds, it installed the only set there is, and every call that has finished ran its lookups
   against that set, unless the set was fetched a ceiling or more before the reading of the call, which then has
   failed for exactly that reason.
   */
  lemma ColdStartSharesOneSet(cfg: Config, states: seq<State>, labels: seq<Label>, k: nat, id: nat)
    requires Run(cfg, states, labels) && k < |states| && id < |states[k].calls| && Together(states[0], cfg.minRefetch)
    requires states[k].world.installs != [] && states[k].calls[id].pc.Done?
    ensures |states[k].world.installs| == 1
    ensures var c, only := states[k].calls[id], states[k].world.installs[0];
            && (forall n :: 0 <= n < |c.past.uses| ==> c.past.uses[n] == Arc(0, only.jwks))
            && (c.past.uses != [] <==> Elapsed(c.job.now, only.at) < cfg.MaxStale())
            && (c.past.uses == [] ==> c.pc == Done(Returned(Err(StaleKeys))))
  {
    ColdStartFetchesOnce(cfg, states, labels, k);
    RunOnTrack(cfg, states, labels, k);
    RunWorldOk(cfg, states, labels, k);
    RunCallOk(cfg, states, labels, k, id);
    AttemptsBoundInstalls(cfg, states[k].world);
    hide Run, Together;
    var c := states[k].calls[id];
    assert c.past.uses != [] ==> Servable(cfg, states[k].world.installs, c.job, c.past, c.past.uses[0]);
  }
}
