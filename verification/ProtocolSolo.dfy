/**
 The protocol and the sequential cache agree: a call scheduled alone, from any state in which nobody holds the
 gate, gives the answer and leaves the data of `KeyCache.WithKeyAlone`.
 */
module ProtocolSolo {
  import opened Prelude
  import opened Jwks
  import opened KeyLookup
  import opened CachePolicy
  import opened CacheProtocol
  import opened ProtocolInvariant
  import opened ProtocolSafety
  import opened ProtocolLiveness
  import opened KeyCache

  /** The data without the identities of the sets. */
  function Plain(inner: Inner<Arc>): Inner<JwkSet> {
    Inner(if inner.keys.None? then None else Some(inner.keys.value.jwks), inner.fetchedAt, inner.lastAttempt)
  }

  function PlainServed(served: Served<Arc>): Served<JwkSet> {
    match served
    case Err(e) => Err(e)
    case Ok(None) => Ok(None)
    case Ok(Some(a)) => Ok(Some(a.jwks))
  }

  /** Only call `id` can hold the gate. */
  predicate Alone(s: State, id: nat) {
    && id < |s.calls|
    && s.world.holder == (if HoldsGate(s.calls[id].pc) then Some(id) else None)
    && !s.calls[id].pc.WaitGate?
  }

  /** The provider answers the call's fetches from a script; its check does not panic. */
  function LabelFor(c: Call, id: nat, script: nat -> Fetch, from: nat): Label {
    Label(id, script(from + (if |c.past.fetches| == 0 then 0 else |c.past.fetches| - 1)), false)
  }

  function Next(cfg: Config, s: State, id: nat, script: nat -> Fetch, from: nat): State
    requires Alone(s, id) && !s.calls[id].pc.Done?
  {
    Step(cfg, s, LabelFor(s.calls[id], id, script, from))
  }

  lemma NextAlone(cfg: Config, s: State, id: nat, script: nat -> Fetch, from: nat)
    requires Alone(s, id) && !s.calls[id].pc.Done?
    ensures Alone(Next(cfg, s, id, script, from), id)
    ensures Rank(Next(cfg, s, id, script, from).calls[id].pc) < Rank(s.calls[id].pc)
  {
    RankDecreases(cfg, s, LabelFor(s.calls[id], id, script, from));
    hide TryAll, Parse, OuterCheck, GateCheck, Snapshot, FallBack, ServeWithinCeiling, Rank;
  }

  /** Schedule call `id`, and no other, until it has finished. */
  function Drive(cfg: Config, s: State, id: nat, script: nat -> Fetch, from: nat): (t: State)
    requires Alone(s, id)
    ensures Alone(t, id) && t.calls[id].pc.Done?
    decreases Rank(s.calls[id].pc)
  {
    if s.calls[id].pc.Done? then s
    else
      NextAlone(cfg, s, id, script, from);
      Drive(cfg, Next(cfg, s, id, script, from), id, script, from)
  }

  /** Driving a call is a schedule of the protocol in which every label names that call. */
  lemma {:induction false} DriveIsSchedule(cfg: Config, s: State, id: nat, script: nat -> Fetch, from: nat)
      returns (states: seq<State>, labels: seq<Label>)
    requires Alone(s, id)
    ensures Connected(cfg, states, labels) && states[0] == s
    ensures states[|labels|] == Drive(cfg, s, id, script, from)
    ensures forall l :: l in labels ==> l.id == id
    decreases Rank(s.calls[id].pc)
  {
    if s.calls[id].pc.Done? {
      states, labels := [s], [];
    } else {
      NextAlone(cfg, s, id, script, from);
      var next := Next(cfg, s, id, script, from);
      var states', labels' := DriveIsSchedule(cfg, next, id, script, from);
      hide Step, Drive;
      states, labels := [s] + states', [LabelFor(s.calls[id], id, script, from)] + labels';
    }
  }

  // ----- one refresh -----

  /** `t` is `s` after its call finished a refresh that did what `r` says. */
  ghost predicate AfterRefreshOf(s: State, t: State, id: nat, round: Round, r: Refreshed)
    requires id < |s.calls|
  {
    && Alone(t, id)
    && |t.calls| == |s.calls|
    && t.calls == s.calls[id := t.calls[id]]
    && Plain(t.world.inner) == r.inner
    && |t.world.claims| == |s.world.claims| + Count(r.fetched)
    && t.calls[id].job == s.calls[id].job
    && t.calls[id].past.uses == s.calls[id].past.uses
    && |t.calls[id].past.fetches| == |s.calls[id].past.fetches| + Count(r.fetched)
    && match r.outcome
       case Panicked => t.calls[id].pc == Done(Panicked)
       case Returned(result) =>
         exists served :: PlainServed(served) == result && t.calls[id].pc == AfterRefresh(round, served)
  }

  lemma DriveNext(cfg: Config, s: State, id: nat, script: nat -> Fetch, from: nat)
    requires Alone(s, id) && !s.calls[id].pc.Done?
    ensures Alone(Next(cfg, s, id, script, from), id)
    ensures Drive(cfg, s, id, script, from) == Drive(cfg, Next(cfg, s, id, script, from), id, script, from)
  {
    NextAlone(cfg, s, id, script, from);
  }

  /** From the outer check to the gate: either turned away, or under the gate. */
  lemma DriveToGate(cfg: Config, s: State, id: nat, script: nat -> Fetch, from: nat) returns (t: State)
    requires Alone(s, id) && s.calls[id].pc.Outer?
    ensures Alone(t, id) && Drive(cfg, s, id, script, from) == Drive(cfg, t, id, script, from)
    ensures t.calls == s.calls[id := t.calls[id]] && t.calls[id].job == s.calls[id].job
    ensures t.calls[id].past.uses == s.calls[id].past.uses && t.calls[id].past.fetches == s.calls[id].past.fetches
    ensures t.world.inner == s.world.inner && t.world.claims == s.world.claims
    ensures var pc := s.calls[id].pc;
            match OuterCheck(cfg, s.world.inner, s.calls[id].job.now, pc.wait)
            case TurnedAway(served) => t.calls[id].pc == AfterRefresh(pc.round, served)
            case Proceed(desperate) => t.calls[id].pc == UnderGate(pc.round, desperate)
  {
    DriveNext(cfg, s, id, script, from);
    var u := Next(cfg, s, id, script, from);
    if OuterCheck(cfg, s.world.inner, s.calls[id].job.now, s.calls[id].pc.wait).TurnedAway? {
      t := u;
    } else {
      DriveNext(cfg, u, id, script, from);
      t := Next(cfg, u, id, script, from);
      hide Drive, OuterCheck;
    }
  }

  /** From a claimed attempt to the end of the refresh. */
  lemma DriveFetch(cfg: Config, s: State, id: nat, script: nat -> Fetch, from: nat) returns (t: State)
    requires Alone(s, id) && s.calls[id].pc.Fetching? && s.calls[id].past.fetches != []
    ensures Alone(t, id) && Drive(cfg, s, id, script, from) == Drive(cfg, t, id, script, from)
    ensures t.calls == s.calls[id := t.calls[id]] && t.calls[id].job == s.calls[id].job
    ensures t.calls[id].past == s.calls[id].past
    ensures t.world.claims == s.world.claims
    ensures var c := s.calls[id];
            match Received(script(from + |c.past.fetches| - 1))
            case None => t.calls[id].pc == Done(Panicked) && t.world.inner == s.world.inner
            case Some(Ok(jwks)) =>
              && Plain(t.world.inner) == Install(Plain(s.world.inner), c.job.now, jwks)
              && t.calls[id].pc == Lookup(c.pc.round, Arc(|s.world.installs|, jwks))
            case Some(Err(e)) =>
              && t.world.inner == s.world.inner
              && t.calls[id].pc == AfterRefresh(c.pc.round, FallBack(cfg, s.world.inner, c.job.now, e))
  {
    hide Drive, Parse, PastCeiling;
    DriveNext(cfg, s, id, script, from);
    var u := Next(cfg, s, id, script, from);
    DriveNext(cfg, u, id, script, from);
    var v := Next(cfg, u, id, script, from);
    if v.calls[id].pc.Done? {
      t := v;
    } else {
      DriveNext(cfg, v, id, script, from);
      t := Next(cfg, v, id, script, from);
    }
  }

  /** From the claim of an attempt to the end of the refresh. */
  lemma DriveClaim(cfg: Config, s: State, id: nat, script: nat -> Fetch, from: nat) returns (t: State)
    requires Alone(s, id) && s.calls[id].pc.UnderGate? && PermitsAttempt(cfg, s.world.inner, s.calls[id].job.now)
    requires s.calls[id].pc.desperate ==> NothingToServe(cfg, s.world.inner, s.calls[id].job.now)
    ensures Alone(t, id) && Drive(cfg, s, id, script, from) == Drive(cfg, t, id, script, from)
    ensures AfterRefreshOf(s, t, id, s.calls[id].pc.round,
              RefreshAlone(cfg, Plain(s.world.inner), s.calls[id].job.now, script(from + |s.calls[id].past.fetches|)))
  {
    hide Drive, PastCeiling, Received, FallBack;
    DriveNext(cfg, s, id, script, from);
    var u := Next(cfg, s, id, script, from);
    var c := s.calls[id];
    assert u.calls[id].past.fetches == c.past.fetches + [c.pc.round];
    t := DriveFetch(cfg, u, id, script, from);
    PlainFallBack(cfg, s.world.inner, c.job.now, FetchFailed);
    hide Drive, Step, Next, PastCeiling, PermitsAttempt, Received, NothingToServe, FallBack, AfterRefresh;
    match Received(script(from + |c.past.fetches|)) {
      case None =>
      case Some(Ok(jwks)) =>
        assert PlainServed(Ok(Some(Arc(|s.world.installs|, jwks)))) == Ok(Some(jwks));
      case Some(Err(e)) =>
        PlainFallBack(cfg, u.world.inner, c.job.now, e);
    }
  }

  lemma PlainFallBack(cfg: Config, inner: Inner<Arc>, now: Instant, e: Error)
    ensures PlainServed(FallBack(cfg, inner, now, e)) == FallBack(cfg, Plain(inner), now, e)
    ensures PastCeiling(cfg, inner, now) == PastCeiling(cfg, Plain(inner), now)
    ensures PermitsAttempt(cfg, inner, now) == PermitsAttempt(cfg, Plain(inner), now)
  {
  }

  /** From under the gate to the end of the refresh. */
  lemma DriveUnderGate(cfg: Config, s: State, id: nat, script: nat -> Fetch, from: nat) returns (t: State)
    requires Alone(s, id) && s.calls[id].pc.UnderGate?
    requires s.calls[id].pc.desperate ==> NothingToServe(cfg, s.world.inner, s.calls[id].job.now)
    ensures Alone(t, id) && Drive(cfg, s, id, script, from) == Drive(cfg, t, id, script, from)
    ensures AfterRefreshOf(s, t, id, s.calls[id].pc.round,
              RefreshAlone(cfg, Plain(s.world.inner), s.calls[id].job.now, script(from + |s.calls[id].past.fetches|)))
  {
    DriveNext(cfg, s, id, script, from);
    var u := Next(cfg, s, id, script, from);
    var c := s.calls[id];
    if PermitsAttempt(cfg, s.world.inner, c.job.now) {
      t := DriveClaim(cfg, s, id, script, from);
    } else {
      DriveNext(cfg, u, id, script, from);
      t := Next(cfg, u, id, script, from);
      hide Drive;
      assert PlainServed(ServeWithinCeiling(cfg, s.world.inner, c.job.now))
          == ServeWithinCeiling(cfg, Plain(s.world.inner), c.job.now);
    }
  }

  lemma DriveRefresh(cfg: Config, s: State, id: nat, script: nat -> Fetch, from: nat) returns (t: State)
    requires Alone(s, id) && s.calls[id].pc.Outer?
    ensures Alone(t, id) && Drive(cfg, s, id, script, from) == Drive(cfg, t, id, script, from)
    ensures AfterRefreshOf(s, t, id, s.calls[id].pc.round,
              RefreshAlone(cfg, Plain(s.world.inner), s.calls[id].job.now, script(from + |s.calls[id].past.fetches|)))
  {
    hide Drive, PermitsAttempt, PastCeiling;
    var c := s.calls[id];
    PlainFallBack(cfg, s.world.inner, c.job.now, FetchFailed);
    t := DriveToGate(cfg, s, id, script, from);
    if OuterCheck(cfg, s.world.inner, c.job.now, c.pc.wait).TurnedAway? {
      assert PlainServed(ServeWithinCeiling(cfg, s.world.inner, c.job.now))
          == ServeWithinCeiling(cfg, Plain(s.world.inner), c.job.now);
    } else {
      var u := t;
      t := DriveUnderGate(cfg, u, id, script, from);
    }
  }

  // ----- the whole call -----

  /** `t` is `s` after its call finished as `a` says. */
  ghost predicate FinishedAs(s: State, t: State, id: nat, a: Answer<()>)
    requires id < |s.calls|
  {
    && Alone(t, id)
    && t.calls == s.calls[id := t.calls[id]]
    && t.calls[id].job == s.calls[id].job
    && t.calls[id].pc == Done(a.outcome)
    && Plain(t.world.inner) == a.inner
    && |t.world.claims| == |s.world.claims| + a.fetches
  }

  /** Where a call stands after a refresh: at a lookup in the set it was given, or finished. */
  lemma WhereARefreshLeads(s: State, t: State, id: nat, round: Round, r: Refreshed)
    requires id < |s.calls| && AfterRefreshOf(s, t, id, round, r)
    ensures Gives(r) ==>
              && t.calls[id].pc.Lookup? && t.calls[id].pc.round == round
              && t.calls[id].pc.keys.jwks == r.outcome.result.value.value
    ensures !Gives(r) ==>
              var missing := if round == First then NothingFetched else UnknownKid;
              t.calls[id].pc == Done(Without<()>(r, 0, missing).outcome)
  {
  }

  /** A lookup of a call that is alone. */
  lemma DriveLookup(cfg: Config, s: State, id: nat, script: nat -> Fetch, from: nat) returns (t: State)
    requires Alone(s, id) && s.calls[id].pc.Lookup?
    ensures Alone(t, id) && Drive(cfg, s, id, script, from) == Drive(cfg, t, id, script, from)
    ensures t.world == s.world && t.calls == s.calls[id := t.calls[id]] && t.calls[id].job == s.calls[id].job
    ensures t.calls[id].past.fetches == s.calls[id].past.fetches
    ensures var c := s.calls[id];
            match TryAll(c.pc.keys.jwks, c.job.kid, c.job.check)
            case Some(result) => t.calls[id].pc == Done(Returned(result))
            case None =>
              t.calls[id].pc == if c.pc.round == First then Outer(Second, false) else Done(Returned(Err(UnknownKid)))
  {
    DriveNext(cfg, s, id, script, from);
    t := Next(cfg, s, id, script, from);
    hide TryAll;
  }

  /** The second half of a call that is alone, from the outer check of its rotation refresh. */
  lemma DriveRotation(cfg: Config, s: State, id: nat, script: nat -> Fetch, from: nat)
    requires Alone(s, id) && s.calls[id].pc.Outer? && s.calls[id].pc.round == Second
    ensures var job := s.calls[id].job;
            FinishedAs(s, Drive(cfg, s, id, script, from), id,
              RotateAlone(cfg, Plain(s.world.inner), job.kid, job.now, job.check,
                          script(from + |s.calls[id].past.fetches|)))
  {
    var job := s.calls[id].job;
    var t := DriveRefresh(cfg, s, id, script, from);
    var r := RefreshAlone(cfg, Plain(s.world.inner), job.now, script(from + |s.calls[id].past.fetches|));
    WhereARefreshLeads(s, t, id, Second, r);
    if Gives(r) {
      var u := DriveLookup(cfg, t, id, script, from);
    }
    hide TryAll, RefreshAlone, Next;
  }

  /** A call that is alone, from its first lookup. */
  lemma DriveFromLookup(cfg: Config, s: State, id: nat, script: nat -> Fetch, from: nat)
    requires Alone(s, id) && s.calls[id].pc.Lookup? && s.calls[id].pc.round == First
    ensures var c := s.calls[id];
            FinishedAs(s, Drive(cfg, s, id, script, from), id,
              LookupAlone(cfg, Plain(s.world.inner), c.pc.keys.jwks, c.job.kid, c.job.now, c.job.check,
                          script(from + |c.past.fetches|)))
  {
    var t := DriveLookup(cfg, s, id, script, from);
    if !t.calls[id].pc.Done? {
      DriveRotation(cfg, t, id, script, from);
    }
    hide TryAll, RotateAlone, Next;
  }

  lemma FinishedAfter(s: State, t: State, end: State, id: nat, round: Round, r: Refreshed, a: Answer<()>)
    requires id < |s.calls| && AfterRefreshOf(s, t, id, round, r) && FinishedAs(t, end, id, a)
    ensures FinishedAs(s, end, id, a.(fetches := Count(r.fetched) + a.fetches))
  {
  }

  /** The end of a call that is alone, once its opening is done. */
  lemma Opened(cfg: Config, s: State, t: State, id: nat, script: nat -> Fetch, from: nat, r: Refreshed)
    requires id < |s.calls| && s.calls[id].past.uses == [] && s.calls[id].past.fetches == []
    requires AfterRefreshOf(s, t, id, First, r)
    ensures var job := s.calls[id].job;
            FinishedAs(s, Drive(cfg, t, id, script, from), id,
              AfterOpening(cfg, r, job.kid, job.now, job.check, script(from + Count(r.fetched))))
  {
    WhereARefreshLeads(s, t, id, First, r);
    if Gives(r) {
      DriveFromLookup(cfg, t, id, script, from);
      var job := s.calls[id].job;
      FinishedAfter(s, t, Drive(cfg, t, id, script, from), id, First, r,
        LookupAlone(cfg, r.inner, r.outcome.result.value.value, job.kid, job.now, job.check,
                    script(from + Count(r.fetched))));
    }
    hide LookupAlone, Next, Plain, TryAll;
  }

  /** From the start of a call to its first lookup, or to its end if it gets no keys. */
  lemma DriveOpening(cfg: Config, s: State, id: nat, script: nat -> Fetch, from: nat) returns (t: State)
    requires Alone(s, id) && Fresh(s.calls[id])
    ensures Alone(t, id) && Drive(cfg, s, id, script, from) == Drive(cfg, t, id, script, from)
    ensures AfterRefreshOf(s, t, id, First, Opening(cfg, Plain(s.world.inner), s.calls[id].job.now, script(from)))
  {
    hide TryAll, RefreshAlone, Drive;
    var c := s.calls[id];
    DriveNext(cfg, s, id, script, from);
    t := Next(cfg, s, id, script, from);
    assert Snapshot(cfg, s.world.inner, c.job.now).refresh == Snapshot(cfg, Plain(s.world.inner), c.job.now).refresh;
    if t.calls[id].pc.Outer? {
      t := DriveRefresh(cfg, t, id, script, from);
    } else {
      assert PlainServed(Ok(s.world.inner.keys)) == Ok(Plain(s.world.inner).keys);
    }
  }

  /**
   Scheduled alone, a call of the protocol returns what the sequential cache returns, leaves the data it leaves,
   claims as many fetches, and touches no other call.
   */
  lemma AloneIsSequential(cfg: Config, s: State, id: nat, script: nat -> Fetch, from: nat)
    requires Alone(s, id) && Fresh(s.calls[id])
    ensures var job := s.calls[id].job;
            FinishedAs(s, Drive(cfg, s, id, script, from), id,
              WithKeyAlone(cfg, Plain(s.world.inner), job.kid, job.now, job.check, script, from))
  {
    hide FinishedAs, AfterRefreshOf, Drive, Opening, AfterOpening, Plain;
    var t := DriveOpening(cfg, s, id, script, from);
    Opened(cfg, s, t, id, script, from, Opening(cfg, Plain(s.world.inner), s.calls[id].job.now, script(from)));
  }

  // ----- a call that has waited -----

  lemma PlainServe(cfg: Config, inner: Inner<Arc>, now: Instant)
    ensures PlainServed(ServeWithinCeiling(cfg, inner, now)) == ServeWithinCeiling(cfg, Plain(inner), now)
    ensures NothingToServe(cfg, inner, now) == NothingToServe(cfg, Plain(inner), now)
  {
  }

  /** From under the gate to the end of the refresh, for a call that has waited. */
  lemma DriveWaited(cfg: Config, s: State, id: nat, script: nat -> Fetch, from: nat) returns (t: State)
    requires Alone(s, id) && s.calls[id].pc == UnderGate(First, true) && s.calls[id].past.fetches == []
    ensures Alone(t, id) && Drive(cfg, s, id, script, from) == Drive(cfg, t, id, script, from)
    ensures AfterRefreshOf(s, t, id, First, RefreshWaited(cfg, Plain(s.world.inner), s.calls[id].job.now, script(from)))
  {
    assert id < |s.calls|;
    hide *;
    PlainServe(cfg, s.world.inner, s.calls[id].job.now);
    if NothingToServe(cfg, s.world.inner, s.calls[id].job.now) {
      WaitedForNothing(cfg, Plain(s.world.inner), s.calls[id].job.now, script(from));
      t := DriveUnderGate(cfg, s, id, script, from);
    } else {
      WaitedForKeys(cfg, Plain(s.world.inner), s.calls[id].job.now, script(from));
      t := DriveSatisfied(cfg, s, id, script, from);
      AfterServed(s, t, id);
    }
  }

  lemma WaitedForNothing(cfg: Config, later: Inner<JwkSet>, now: Instant, fetch: Fetch)
    requires NothingToServe(cfg, later, now)
    ensures RefreshWaited(cfg, later, now, fetch) == RefreshAlone(cfg, later, now, fetch)
  {
  }

  lemma WaitedForKeys(cfg: Config, later: Inner<JwkSet>, now: Instant, fetch: Fetch)
    requires !NothingToServe(cfg, later, now)
    ensures RefreshWaited(cfg, later, now, fetch) == Refreshed(later, false, Returned(Ok(later.keys)))
  {
  }

  lemma AfterServed(s: State, t: State, id: nat)
    requires Alone(t, id) && id < |s.calls| && t.world == s.world.(holder := None)
    requires t.calls == s.calls[id := s.calls[id].(pc := AfterRefresh(First, Ok(s.world.inner.keys)))]
    ensures AfterRefreshOf(s, t, id, First, Refreshed(Plain(s.world.inner), false, Returned(Ok(Plain(s.world.inner).keys))))
  {
    hide Alone, AfterRefresh;
    assert PlainServed(Ok(s.world.inner.keys)) == Ok(Plain(s.world.inner).keys);
  }

  lemma DriveSatisfied(cfg: Config, s: State, id: nat, script: nat -> Fetch, from: nat) returns (t: State)
    requires Alone(s, id) && s.calls[id].pc == UnderGate(First, true)
    requires !NothingToServe(cfg, s.world.inner, s.calls[id].job.now)
    ensures Alone(t, id) && Drive(cfg, s, id, script, from) == Drive(cfg, t, id, script, from)
    ensures t.calls == s.calls[id := s.calls[id].(pc := AfterRefresh(First, Ok(s.world.inner.keys)))]
    ensures t.world == s.world.(holder := None)
  {
    hide Drive, PastCeiling, PermitsAttempt, TryAll, Parse;
    DriveNext(cfg, s, id, script, from);
    var u := Next(cfg, s, id, script, from);
    assert u == State(s.world, s.calls[id := s.calls[id].(pc := Releasing(First, Ok(s.world.inner.keys)))]);
    DriveNext(cfg, u, id, script, from);
    t := Next(cfg, u, id, script, from);
  }

  /**
   A call that waits and then gets the gate, scheduled alone from there, ends as the sequential cache says of a call
   that had to wait, from the data as it finds them, whatever it was that could not be served when it came.
   */
  lemma WaitedIsSequential(cfg: Config, s: State, id: nat, found: Inner<JwkSet>, script: nat -> Fetch, from: nat)
    requires id < |s.calls| && s.calls[id].pc == WaitGate(First) && s.world.holder == None
    requires s.calls[id].past.uses == [] && s.calls[id].past.fetches == []
    requires NothingToServe(cfg, found, s.calls[id].job.now)
    ensures var t, job := Step(cfg, s, Label(id, TransportError, false)), s.calls[id].job;
            && Alone(t, id)
            && FinishedAs(s, Drive(cfg, t, id, script, from), id,
                 WithKeyAt(cfg, Busy(Plain(s.world.inner)), found, job.kid, job.now, job.check, script, from))
  {
    hide Drive, RefreshWaited, AfterOpening, AfterRefreshOf, NothingToServe, Step, Plain;
    var t, job := Step(cfg, s, Label(id, TransportError, false)), s.calls[id].job;
    TakesGate(cfg, s, id);
    var u := DriveWaited(cfg, t, id, script, from);
    var r := RefreshWaited(cfg, Plain(s.world.inner), job.now, script(from));
    Opened(cfg, t, u, id, script, from, r);
  }

  lemma TakesGate(cfg: Config, s: State, id: nat)
    requires id < |s.calls| && s.calls[id].pc == WaitGate(First) && s.world.holder == None
    ensures var t := Step(cfg, s, Label(id, TransportError, false));
            && t == State(s.world.(holder := Some(id)), s.calls[id := s.calls[id].(pc := UnderGate(First, true))])
            && Alone(t, id)
  {
  }

  // ----- why the rate bound needs a positive interval -----

  lemma Concatenate(cfg: Config, a: seq<State>, la: seq<Label>, b: seq<State>, lb: seq<Label>)
    requires Connected(cfg, a, la) && Connected(cfg, b, lb) && a[|la|] == b[0]
    ensures Connected(cfg, a + b[1..], la + lb) && (a + b[1..])[|la + lb|] == b[|lb|]
  {
    hide Step;
    var c, lc := a + b[1..], la + lb;
    forall i | 0 <= i < |lc|
      ensures Enabled(c[i], lc[i].id) && c[i + 1] == Step(cfg, c[i], lc[i])
    {
      if i >= |la| {
        assert c[i] == b[i - |la|] && c[i + 1] == b[i + 1 - |la|] && lc[i] == lb[i - |la|];
      }
    }
  }

  /** `k` of the calls are through, each after a failed fetch; the others have not started. */
  ghost predicate Flooded(s: State, n: nat, k: nat) {
    && |s.calls| == n
    && s.world.holder == None
    && s.world.inner.keys == None && s.world.inner.fetchedAt == None
    && |s.world.claims| == k
    && (forall i :: 0 <= i < n ==> s.calls[i].job.now == 0)
    && (forall i :: k <= i < n ==> Fresh(s.calls[i]))
  }

  lemma FloodOne(cfg: Config, s: State, n: nat, k: nat)
    requires cfg.minRefetch == 0 && Flooded(s, n, k) && k < n
    ensures Alone(s, k) && Flooded(Drive(cfg, s, k, m => TransportError, 0), n, k + 1)
  {
    AloneIsSequential(cfg, s, k, m => TransportError, 0);
    hide Drive, TryAll;
  }

  lemma {:induction false} Flood(cfg: Config, n: nat, k: nat) returns (states: seq<State>, labels: seq<Label>)
    requires cfg.minRefetch == 0 && k <= n
    ensures Run(cfg, states, labels) && Flooded(states[|labels|], n, k)
    decreases k
  {
    if k == 0 {
      var c := Call(Job("", 0, (key: Jwk) => Ok(())), Start, Past(None, None, [], []));
      var calls := seq(n, i => c);
      states, labels := [State(World(Inner(None, None, None), None, false, [], []), calls)], [];
    } else {
      var states0, labels0 := Flood(cfg, n, k - 1);
      var s := states0[|labels0|];
      FloodOne(cfg, s, n, k - 1);
      var more, moreLabels := DriveIsSchedule(cfg, s, k - 1, m => TransportError, 0);
      Concatenate(cfg, states0, labels0, more, moreLabels);
      hide Drive, Step;
      states, labels := states0 + more[1..], labels0 + moreLabels;
    }
  }

  lemma {:induction false} AllAttemptsIn(claims: seq<Claim>, a: Instant)
    requires forall k :: 0 <= k < |claims| ==> claims[k].now == a
    ensures AttemptsIn(claims, a, a) == |claims|
  {
    if claims != [] {
      AllAttemptsIn(claims[..|claims| - 1], a);
    }
  }

  /**
   With interval zero there is no bound at all: for every `n` there is a run in which `n` calls with one and the
   same clock reading cause `n` fetches. So the rate bound holds exactly for positive intervals.
   */
  lemma ZeroIntervalIsUnbounded(cfg: Config, n: nat) returns (states: seq<State>, labels: seq<Label>)
    requires cfg.minRefetch == 0
    ensures Run(cfg, states, labels) && AttemptsIn(states[|labels|].world.claims, 0, 0) == n
  {
    states, labels := Flood(cfg, n, n);
    RunInv(cfg, states, labels, |labels|);
    AllAttemptsIn(states[|labels|].world.claims, 0);
  }
}
