/** What the end of a call means, in every run: where its keys came from, and why it failed. */
module ProtocolOutcomes {
  import opened Prelude
  import opened Jwks
  import opened KeyLookup
  import opened CachePolicy
  import opened CacheProtocol
  import opened ProtocolInvariant
  import opened KeyCache

  // ----- the last move of a call -----

  /** The step at which a call came to stand where it stands. */
  lemma {:induction false} LastMove(cfg: Config, states: seq<State>, labels: seq<Label>, k: nat, id: nat) returns (m: nat)
    requires Run(cfg, states, labels) && k < |states| && id < |states[k].calls| && !states[k].calls[id].pc.Start?
    ensures m < k && m < |labels| && labels[m].id == id && Enabled(states[m], labels[m].id)
    ensures states[k].calls[id] == Advance(cfg, states[m], labels[m]).call
    ensures states[m + 1].world == Advance(cfg, states[m], labels[m]).world
    ensures forall n :: m < n < k ==> labels[n].id != id
    decreases k
  {
    hide Advance;
    if k == 0 {
      RunStarts(cfg, states, labels);
      assert false;
    } else {
      RunSteps(cfg, states, labels, k);
      if labels[k - 1].id == id {
        m := k - 1;
      } else {
        m := LastMove(cfg, states, labels, k - 1, id);
      }
    }
  }

  // ----- where the keys of a lookup come from -----

  lemma IntoLookup(cfg: Config, s: State, l: Label)
    requires Enabled(s, l.id) && Advance(cfg, s, l).call.pc.Lookup?
    ensures var pc, keys := s.calls[l.id].pc, Advance(cfg, s, l).call.pc.keys;
            || ((pc.Start? || pc.Outer? || pc.LostRace?) && Advance(cfg, s, l).world.inner.keys == Some(keys))
            || (pc.Releasing? && pc.served == Ok(Some(keys)))
  {
    hide TryAll, Parse, GateCheck, PermitsAttempt, PastCeiling, Stale;
  }

  lemma IntoReleasing(cfg: Config, s: State, l: Label)
    requires Enabled(s, l.id) && Advance(cfg, s, l).call.pc.Releasing?
    ensures var pc, served := s.calls[l.id].pc, Advance(cfg, s, l).call.pc.served;
            && (pc.UnderGate? || pc.Settling?)
            && (served.Ok? ==> served.value == Advance(cfg, s, l).world.inner.keys)
  {
    hide TryAll, Parse, Snapshot, OuterCheck, PermitsAttempt, PastCeiling;
  }

  /**
   A lookup runs against exactly the set that was cached when its call last held the data lock, just after it; since
   then the call has done nothing but give the gate back. So what a refresh finds or brings is what is looked at.
   */
  lemma LookupsUseTheCachedSet(cfg: Config, states: seq<State>, labels: seq<Label>, k: nat, id: nat) returns (m: nat)
    requires Run(cfg, states, labels) && k < |states| && id < |states[k].calls| && states[k].calls[id].pc.Lookup?
    ensures m < k && labels[m].id == id && states[m + 1].world.inner.keys == Some(states[k].calls[id].pc.keys)
    ensures forall n :: m < n < k && labels[n].id == id ==> id < |states[n].calls| && states[n].calls[id].pc.Releasing?
  {
    hide Run, Advance;
    m := LastMove(cfg, states, labels, k, id);
    IntoLookup(cfg, states[m], labels[m]);
    if states[m].calls[id].pc.Releasing? {
      var r := m;
      m := LastMove(cfg, states, labels, r, id);
      IntoReleasing(cfg, states[m], labels[m]);
    }
  }

  // ----- why a call fails -----

  /** No key of the set has the call's `kid`. */
  ghost predicate Lacks(jwks: JwkSet, kid: string) {
    forall key :: key in jwks.keys ==> key.kid != Some(kid) && !(kid == "" && key.kid == None)
  }

  /** A call fails by a move from here, with the data as it is: the reasons a move can give. */
  ghost predicate FailsHere(cfg: Config, inner: Inner<Arc>, c: Call, e: Error) {
    var now := c.job.now;
    match c.pc
    // a lookup: the check's own answer, or for the second time no key of the `kid`
    case Lookup(round, keys) =>
      || TryAll(keys.jwks, c.job.kid, c.job.check) == Some(Err(e))
      || (e == UnknownKid && round == Second && |c.past.uses| == 1
          && Lacks(c.past.uses[0].jwks, c.job.kid) && Lacks(keys.jwks, c.job.kid))
    // a refresh that may not fetch: keys past the ceiling, or none; a call that may wait is not refused before the gate
    case Outer(_, wait) => NotServed(cfg, inner, now, e) && !PermitsAttempt(cfg, inner, now) && !wait
    case LostRace(_) => NotServed(cfg, inner, now, e)
    case UnderGate(_, _) => NotServed(cfg, inner, now, e) && !PermitsAttempt(cfg, inner, now)
    // a failed fetch with nothing to fall back on
    case Settling(_, fetched) => fetched == Err(e) && NothingToServe(cfg, inner, now)
    case _ => false
  }

  ghost predicate NotServed(cfg: Config, inner: Inner<Arc>, now: Instant, e: Error) {
    || (e == StaleKeys && PastCeiling(cfg, inner, now))
    || (e == NothingFetched && inner.keys == None)
  }

  /** A move of a call into a failure, or into a release of the gate that will be one. */
  predicate Failing(pc: Pc, e: Error) {
    || pc == Done(Returned(Err(e)))
    || (pc.Releasing? && AfterRefresh(pc.round, pc.served) == Done(Returned(Err(e))))
  }

  lemma IntoFailure(cfg: Config, s: State, l: Label, e: Error)
    requires Enabled(s, l.id) && Local(cfg, s.world, l.id, s.calls[l.id])
    requires Failing(Advance(cfg, s, l).call.pc, e) && !s.calls[l.id].pc.Releasing? && !s.calls[l.id].pc.Lookup?
    ensures FailsHere(cfg, s.world.inner, s.calls[l.id], e)
  {
    hide Parse, Snapshot, PermitsAttempt, PastCeiling, Spaced, InstallsOk, UsesOk, FetchesOk, Servable, NotOlder,
      NeededRefresh, Missed, TryAll;
  }

  lemma LookupFails(cfg: Config, s: State, l: Label, e: Error)
    requires Enabled(s, l.id) && Local(cfg, s.world, l.id, s.calls[l.id])
    requires Failing(Advance(cfg, s, l).call.pc, e) && s.calls[l.id].pc.Lookup?
    ensures FailsHere(cfg, s.world.inner, s.calls[l.id], e)
    ensures Advance(cfg, s, l).call.past.uses == s.calls[l.id].past.uses + [s.calls[l.id].pc.keys]
    ensures Advance(cfg, s, l).call.job == s.calls[l.id].job
  {
    var c := s.calls[l.id];
    TryAllSucceeds(c.pc.keys.jwks, c.job.kid, c.job.check);
    if c.pc.round == Second {
      assert Missed(c.job, c.past);
      MatchingMembers(c.past.uses[0].jwks.keys, c.job.kid);
    }
    hide TryAll, Matching, WorldOk, UsesOk, FetchesOk, Servable;
  }

  lemma ReleaseFails(cfg: Config, s: State, l: Label, e: Error)
    requires Enabled(s, l.id) && Advance(cfg, s, l).call.pc == Done(Returned(Err(e))) && s.calls[l.id].pc.Releasing?
    ensures Failing(s.calls[l.id].pc, e)
  {
  }

  /** What a fetch hands on is what the provider answered to it. */
  lemma IntoSettling(cfg: Config, s: State, l: Label)
    requires Enabled(s, l.id) && Advance(cfg, s, l).call.pc.Settling?
    ensures s.calls[l.id].pc.Fetching? && Received(l.fetch) == Some(Advance(cfg, s, l).call.pc.fetched)
  {
    hide TryAll, Parse, Snapshot, OuterCheck, GateCheck, FallBack, ServeWithinCeiling;
  }

  /**
   Every failure has its reason, in every run: at step `m` the call met it. The check of the lookup said so; or two
   sets were looked at and neither has the `kid`; or the cached keys were past the ceiling, or there were none, while
   the call might not fetch or another was fetching; or the call's own fetch, at step `f`, failed with that very error
   and nothing was left to serve.
   */
  lemma FailuresHaveReasons(cfg: Config, states: seq<State>, labels: seq<Label>, k: nat, id: nat, e: Error)
      returns (m: nat, f: nat)
    requires Run(cfg, states, labels) && k < |states| && id < |states[k].calls|
    requires states[k].calls[id].pc == Done(Returned(Err(e)))
    ensures m < k && labels[m].id == id && id < |states[m].calls|
    ensures FailsHere(cfg, states[m].world.inner, states[m].calls[id], e)
    ensures states[m].calls[id].pc.Settling? ==>
              && f < m && labels[f].id == id && id < |states[f].calls| && states[f].calls[id].pc.Fetching?
              && Received(labels[f].fetch) == Some(Err(e))
    ensures states[m].calls[id].pc.Lookup? ==>
              && states[k].calls[id].past.uses == states[m].calls[id].past.uses + [states[m].calls[id].pc.keys]
              && states[k].calls[id].job == states[m].calls[id].job
  {
    hide Run, Advance, FailsHere, Failing, Local;
    assert Failing(states[k].calls[id].pc, e) by {
      Finished(states[k].calls[id].pc, e);
    }
    f := 0;
    m := LastMove(cfg, states, labels, k, id);
    if states[m].calls[id].pc.Releasing? {
      ReleaseFails(cfg, states[m], labels[m], e);
      var r := m;
      m := LastMove(cfg, states, labels, r, id);
      IntoReleasing(cfg, states[m], labels[m]);
    }
    RunCallOk(cfg, states, labels, m, id);
    if states[m].calls[id].pc.Lookup? {
      LookupFails(cfg, states[m], labels[m], e);
    } else {
      IntoFailure(cfg, states[m], labels[m], e);
    }
    if states[m].calls[id].pc.Settling? {
      SettlingFails(cfg, states[m].world.inner, states[m].calls[id], e);
      f := LastMove(cfg, states, labels, m, id);
      IntoSettling(cfg, states[f], labels[f]);
    }
  }

  lemma Finished(pc: Pc, e: Error)
    requires pc == Done(Returned(Err(e)))
    ensures Failing(pc, e)
  {
  }

  lemma SettlingFails(cfg: Config, inner: Inner<Arc>, c: Call, e: Error)
    requires FailsHere(cfg, inner, c, e) && c.pc.Settling?
    ensures c.pc.fetched == Err(e)
  {
  }

  /**
   In particular, a call is told that its `kid` is unknown only after it has looked at two sets that both lack it, or
   if its check says so itself.
   */
  lemma UnknownKidMeansTwoMisses(cfg: Config, states: seq<State>, labels: seq<Label>, k: nat, id: nat)
    requires Run(cfg, states, labels) && k < |states| && id < |states[k].calls|
    requires states[k].calls[id].pc == Done(Returned(Err(UnknownKid)))
    requires forall key :: states[k].calls[id].job.check(key) != Err(UnknownKid)
    ensures |states[k].calls[id].past.uses| == 2
    ensures forall used :: used in states[k].calls[id].past.uses ==> Lacks(used.jwks, states[k].calls[id].job.kid)
  {
    hide Run;
    var m, f := FailuresHaveReasons(cfg, states, labels, k, id, UnknownKid);
    var c := states[m].calls[id];
    if c.pc.Lookup? && TryAll(c.pc.keys.jwks, c.job.kid, c.job.check) == Some(Err(UnknownKid)) {
      var key := ErrorIsSome(c.pc.keys.jwks, c.job.kid, c.job.check, UnknownKid);
      assert false;
    }
    hide TryAll, PastCeiling, NothingToServe, PermitsAttempt;
  }

  // ----- what a panic means -----

  lemma IntoPanic(cfg: Config, s: State, l: Label)
    requires Enabled(s, l.id)
    ensures Advance(cfg, s, l).call.pc == Done(Panicked) ==>
              var c := s.calls[l.id];
              || c.pc.Unwinding?
              || (c.pc.Lookup? && l.checkPanics && TryAll(c.pc.keys.jwks, c.job.kid, c.job.check).Some?)
    ensures Advance(cfg, s, l).call.pc.Unwinding? ==> s.calls[l.id].pc.Fetching? && l.fetch == FetchPanics
  {
    hide TryAll, Parse, Snapshot, OuterCheck, GateCheck, FallBack, ServeWithinCeiling;
  }

  /**
   And a panic always unwinds: a check that panics on a key of the `kid` ends its call at once; a fetcher that panics
   leaves its call nothing to do but to give the gate back and end.
   */
  lemma PanicsUnwind(cfg: Config, states: seq<State>, labels: seq<Label>, m: nat)
    requires Run(cfg, states, labels) && m < |labels|
    ensures var c, next := states[m].calls[labels[m].id], states[m + 1].calls[labels[m].id];
            && (c.pc.Lookup? ==>
                  (next.pc == Done(Panicked) <==>
                     labels[m].checkPanics && !Lacks(c.pc.keys.jwks, c.job.kid)))
            && (c.pc.Fetching? ==> (next.pc == Unwinding <==> labels[m].fetch == FetchPanics))
            && (c.pc.Unwinding? ==> next.pc == Done(Panicked) && states[m + 1].world.holder == None)
  {
    RunSteps(cfg, states, labels, m + 1);
    hide Run;
    var c := states[m].calls[labels[m].id];
    if c.pc.Lookup? {
      TryAllSucceeds(c.pc.keys.jwks, c.job.kid, c.job.check);
    }
    PanicMove(cfg, states[m], labels[m]);
    hide Advance, TryAll;
  }

  lemma PanicMove(cfg: Config, s: State, l: Label)
    requires Enabled(s, l.id)
    ensures var m, c := Advance(cfg, s, l), s.calls[l.id];
            && (c.pc.Lookup? ==>
                  (m.call.pc == Done(Panicked) <==>
                     l.checkPanics && TryAll(c.pc.keys.jwks, c.job.kid, c.job.check).Some?))
            && (c.pc.Fetching? ==> (m.call.pc == Unwinding <==> l.fetch == FetchPanics))
            && (c.pc.Unwinding? ==> m.call.pc == Done(Panicked) && m.world.holder == None)
  {
    hide TryAll, Parse, Snapshot, OuterCheck, GateCheck, FallBack, ServeWithinCeiling;
  }

  /** A call is unwound only by a panic of the fetcher in its own fetch, or of its own check on a key of its `kid`. */
  lemma PanicsHaveReasons(cfg: Config, states: seq<State>, labels: seq<Label>, k: nat, id: nat) returns (m: nat)
    requires Run(cfg, states, labels) && k < |states| && id < |states[k].calls|
    requires states[k].calls[id].pc == Done(Panicked)
    ensures m < k && labels[m].id == id && id < |states[m].calls|
    ensures var c := states[m].calls[id];
            || (c.pc.Fetching? && labels[m].fetch == FetchPanics)
            || (c.pc.Lookup? && labels[m].checkPanics && TryAll(c.pc.keys.jwks, c.job.kid, c.job.check).Some?)
  {
    hide Run, Advance, TryAll;
    m := LastMove(cfg, states, labels, k, id);
    IntoPanic(cfg, states[m], labels[m]);
    if states[m].calls[id].pc.Unwinding? {
      var u := m;
      m := LastMove(cfg, states, labels, u, id);
      IntoPanic(cfg, states[m], labels[m]);
    }
  }

  /** A gate is poisoned exactly when some call has been unwound out of its fetch. */
  lemma {:induction false} PoisonMeansPanic(cfg: Config, states: seq<State>, labels: seq<Label>, k: nat)
    requires Run(cfg, states, labels) && k < |states|
    ensures states[k].world.poisoned <==>
              exists m :: 0 <= m < k && Unwound(states, labels, m)
    decreases k
  {
    hide Run, Advance, Unwound, Initial;
    if k == 0 {
      RunStarts(cfg, states, labels);
      NotPoisoned(states[0]);
    } else {
      RunSteps(cfg, states, labels, k);
      PoisonMeansPanic(cfg, states, labels, k - 1);
      PoisonStep(cfg, states[k - 1], labels[k - 1]);
      assert Unwound(states, labels, k - 1) <==> states[k - 1].calls[labels[k - 1].id].pc.Unwinding? by {
        UnwoundHere(states, labels, k - 1);
      }
    }
  }

  /** Step `m` ends the unwinding of a call whose fetcher panicked. */
  ghost predicate Unwound(states: seq<State>, labels: seq<Label>, m: nat) {
    && m < |states| && m < |labels| && labels[m].id < |states[m].calls|
    && states[m].calls[labels[m].id].pc.Unwinding?
  }

  lemma UnwoundHere(states: seq<State>, labels: seq<Label>, m: nat)
    requires m < |states| && m < |labels| && labels[m].id < |states[m].calls|
    ensures Unwound(states, labels, m) <==> states[m].calls[labels[m].id].pc.Unwinding?
  {
  }

  lemma NotPoisoned(s: State)
    requires Initial(s)
    ensures !s.world.poisoned
  {
  }

  lemma PoisonStep(cfg: Config, s: State, l: Label)
    requires Enabled(s, l.id)
    ensures Advance(cfg, s, l).world.poisoned <==> s.world.poisoned || s.calls[l.id].pc.Unwinding?
  {
    hide TryAll, Parse, Snapshot, OuterCheck, GateCheck, FallBack, ServeWithinCeiling;
  }

  // ----- who comes to the gate, and who is turned away -----

  lemma IntoTryGate(cfg: Config, s: State, l: Label)
    requires Enabled(s, l.id) && Advance(cfg, s, l).call.pc.TryGate?
    ensures var c := s.calls[l.id];
            && c.pc.Outer? && Advance(cfg, s, l).call.pc.round == c.pc.round
            && Advance(cfg, s, l).call.pc.desperate == (c.pc.wait && NothingToServe(cfg, s.world.inner, c.job.now))
            && (!Advance(cfg, s, l).call.pc.desperate ==> PermitsAttempt(cfg, s.world.inner, c.job.now))
  {
    hide TryAll, Parse, GateCheck, PermitsAttempt, PastCeiling, Snapshot;
  }

  /** Only a call that was permitted an attempt at its outer check, or had nothing to serve there, comes to the gate. */
  lemma OnlyThePermittedComeToTheGate(cfg: Config, states: seq<State>, labels: seq<Label>, k: nat, id: nat)
      returns (m: nat)
    requires Run(cfg, states, labels) && k < |states| && id < |states[k].calls| && states[k].calls[id].pc.TryGate?
    ensures m < k && labels[m].id == id && id < |states[m].calls| && states[m].calls[id].pc.Outer?
    ensures var c, inner := states[m].calls[id], states[m].world.inner;
            || PermitsAttempt(cfg, inner, c.job.now)
            || (c.pc == Outer(First, true) && NothingToServe(cfg, inner, c.job.now))
  {
    hide Run, Advance, NothingToServe, PermitsAttempt;
    m := LastMove(cfg, states, labels, k, id);
    IntoTryGate(cfg, states[m], labels[m]);
    RunCallOk(cfg, states, labels, m, id);
  }

  lemma IntoRace(cfg: Config, s: State, l: Label)
    requires Enabled(s, l.id)
    ensures var pc, next := s.calls[l.id].pc, Advance(cfg, s, l).call.pc;
            && (next == LostRace(First) ==> pc == TryGate(First, false))
            && (next == TryGate(First, false) ==>
                  && pc.Outer? && pc.round == First
                  && !(pc.wait && NothingToServe(cfg, s.world.inner, s.calls[l.id].job.now)))
            && (next == Outer(First, false) ==>
                  pc.Start? && !NothingToServe(cfg, s.world.inner, s.calls[l.id].job.now))
  {
    hide TryAll, Parse, GateCheck, PermitsAttempt, PastCeiling, Stale;
  }

  /**
   A call that loses the race for the gate in its first round, and goes on without waiting, found keys to serve when
   it began, at step `a`, or at its outer check, at step `b`. So a call with nothing to serve at either waits.
   */
  lemma OnlyTheServedLoseTheRace(cfg: Config, states: seq<State>, labels: seq<Label>, k: nat, id: nat)
      returns (a: nat, b: nat)
    requires Run(cfg, states, labels) && k < |states| && id < |states[k].calls|
    requires states[k].calls[id].pc == LostRace(First)
    ensures a < b < k && labels[a].id == id && labels[b].id == id
    ensures id < |states[a].calls| && states[a].calls[id].pc.Start?
    ensures id < |states[b].calls| && states[b].calls[id].pc.Outer?
    ensures || !NothingToServe(cfg, states[a].world.inner, states[a].calls[id].job.now)
            || !NothingToServe(cfg, states[b].world.inner, states[b].calls[id].job.now)
  {
    hide Run, Advance, NothingToServe;
    var t := LastMove(cfg, states, labels, k, id);
    IntoRace(cfg, states[t], labels[t]);
    b := LastMove(cfg, states, labels, t, id);
    IntoRace(cfg, states[b], labels[b]);
    a := LastMove(cfg, states, labels, b, id);
    IntoRace(cfg, states[a], labels[a]);
    IntoOuter(cfg, states[a], labels[a]);
  }

  lemma IntoOuter(cfg: Config, s: State, l: Label)
    requires Enabled(s, l.id)
    ensures Advance(cfg, s, l).call.pc.Outer? && Advance(cfg, s, l).call.pc.round == First ==> s.calls[l.id].pc.Start?
  {
    hide TryAll, Parse, GateCheck, OuterCheck, Snapshot;
  }
}
