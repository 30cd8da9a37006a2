/** Runs that show what the protocol does allow: waiting behind the fetches of others, and the ceiling error. */
module ProtocolWitnesses {
  import opened Prelude
  import opened Jwks
  import opened KeyLookup
  import opened CachePolicy
  import opened CacheProtocol
  import opened ProtocolInvariant
  import opened ProtocolSafety
  import opened ProtocolWaiting
  import opened ProtocolAvailability
  import opened KeyCache
  import opened ProtocolSolo

  // ----- extending a run -----

  lemma Extend(cfg: Config, states: seq<State>, labels: seq<Label>, l: Label) returns (more: seq<State>)
    requires Run(cfg, states, labels) && Enabled(states[|labels|], l.id)
    ensures more == states + [Step(cfg, states[|labels|], l)]
    ensures Run(cfg, more, labels + [l])
  {
    hide Step;
    more := states + [Step(cfg, states[|labels|], l)];
  }

  /** One call is driven to its end behind a run. */
  lemma ExtendByDrive(cfg: Config, states: seq<State>, labels: seq<Label>, id: nat, script: nat -> Fetch)
      returns (more: seq<State>, moreLabels: seq<Label>)
    requires Run(cfg, states, labels) && Alone(states[|labels|], id)
    ensures Run(cfg, more, moreLabels) && states <= more && labels <= moreLabels
    ensures |states| == |labels| + 1 && |more| == |moreLabels| + 1
    ensures more[|moreLabels|] == Drive(cfg, states[|labels|], id, script, 0)
    ensures forall m :: |labels| <= m < |moreLabels| ==> moreLabels[m].id == id
  {
    var tail, tailLabels := DriveIsSchedule(cfg, states[|labels|], id, script, 0);
    Concatenate(cfg, states, labels, tail, tailLabels);
    hide Drive, Step;
    more, moreLabels := states + tail[1..], labels + tailLabels;
  }

  /** A call that finds nothing to serve goes up to the gate, and takes it or waits for it. */
  lemma ExtendToTheGate(cfg: Config, states: seq<State>, labels: seq<Label>, id: nat)
      returns (more: seq<State>, moreLabels: seq<Label>)
    requires Run(cfg, states, labels) && id < |states[|labels|].calls|
    requires Fresh(states[|labels|].calls[id])
    requires NothingToServe(cfg, states[|labels|].world.inner, states[|labels|].calls[id].job.now)
    ensures Run(cfg, more, moreLabels) && states <= more && labels <= moreLabels
    ensures var s, t := states[|labels|], more[|moreLabels|];
            && |t.calls| == |s.calls| && t.calls == s.calls[id := t.calls[id]]
            && t.calls[id].job == s.calls[id].job && t.calls[id].past.fetches == []
            && t.world == (if s.world.holder.None? then s.world.(holder := Some(id)) else s.world)
            && t.calls[id].pc == (if s.world.holder.None? then UnderGate(First, true) else WaitGate(First))
  {
    var s, l := states[|labels|], Label(id, TransportError, false);
    var a := Extend(cfg, states, labels, l);
    var s1 := Step(cfg, s, l);
    assert s1 == State(s.world, s.calls[id := s1.calls[id]]) && s1.calls[id].pc == Outer(First, true);
    var b := Extend(cfg, a, labels + [l], l);
    var s2 := Step(cfg, s1, l);
    assert s2 == State(s.world, s.calls[id := s2.calls[id]]) && s2.calls[id].pc == TryGate(First, true);
    more := Extend(cfg, b, labels + [l] + [l], l);
    moreLabels := labels + [l] + [l] + [l];
    hide Run, NothingToServe, PastCeiling;
  }

  // ----- a queue behind a failing provider -----

  /** When even the newest keys of time zero are past the ceiling, and one more attempt is permitted. */
  function Late(cfg: Config): Instant {
    if cfg.MaxStale() < cfg.minRefetch then cfg.minRefetch else cfg.MaxStale()
  }

  /** The clock readings of the calls: the first fills the cache at zero, the others come an interval apart. */
  function Reading(cfg: Config, i: nat): Instant {
    if i == 0 then 0 else if i == 1 then Late(cfg) else Reading(cfg, i - 1) + cfg.minRefetch
  }

  lemma {:induction false} ReadingsAreLate(cfg: Config, i: nat)
    requires i > 0
    ensures Reading(cfg, i) >= Late(cfg)
  {
    if i > 1 {
      ReadingsAreLate(cfg, i - 1);
    }
  }

  const ANY_KEY := Jwk("RSA", None, None, None, None, None, None, None)

  /** A call that comes at the reading of its place. */
  function CallAt(now: Instant): Call {
    Call(Job("", now, (key: Jwk) => Ok(())), Start, Past(None, None, [], []))
  }

  /**
   `n + 3` calls, after `k` of them have fetched: the cached keys date from time zero, call `n + 2` is past their
   ceiling, and the calls from `k` on have not started.
   */
  ghost predicate Queue(cfg: Config, s: State, n: nat, k: nat)
    requires k > 0
  {
    && |s.calls| == n + 3
    && s.world.inner.keys.Some? && s.world.inner.fetchedAt == Some(0)
    && s.world.inner.lastAttempt == Some(Reading(cfg, k - 1))
    && |s.world.claims| == k
    && s.calls[n + 2].job.now == Late(cfg)
    && (forall i :: k <= i < n + 2 ==> Fresh(s.calls[i]) && s.calls[i].job.now == Reading(cfg, i))
  }

  /** At the reading of a later call nothing of time zero can be served, and an attempt is permitted. */
  lemma QueueNext(cfg: Config, s: State, n: nat, k: nat)
    requires 0 < k && Queue(cfg, s, n, k)
    ensures NothingToServe(cfg, s.world.inner, Reading(cfg, k)) && NothingToServe(cfg, s.world.inner, Late(cfg))
    ensures PermitsAttempt(cfg, s.world.inner, Reading(cfg, k))
  {
    ReadingsAreLate(cfg, k);
  }

  lemma Begin(cfg: Config, s: State)
    requires Initial(s)
    ensures Run(cfg, [s], [])
  {
  }

  /** A new cache and the calls of the queue. */
  function NewQueue(cfg: Config, n: nat): (s: State)
    ensures |s.calls| == n + 3
    ensures forall i :: 0 <= i < n + 2 ==> s.calls[i] == CallAt(Reading(cfg, i))
    ensures s.calls[n + 2] == CallAt(Late(cfg))
  {
    State(World(Inner(None, None, None), None, false, [], []),
          seq(n + 3, i requires 0 <= i < n + 3 => CallAt(if i == n + 2 then Late(cfg) else Reading(cfg, i))))
  }

  /** The first call fills the cache. */
  lemma Filled(cfg: Config, n: nat) returns (states: seq<State>, labels: seq<Label>)
    ensures Run(cfg, states, labels)
    ensures var s := states[|labels|];
            Queue(cfg, s, n, 1) && s.world.holder == None && Fresh(s.calls[n + 2])
  {
    var s := NewQueue(cfg, n);
    var script: nat -> Fetch := m => Body(Keys([Some(ANY_KEY)]));
    Begin(cfg, s);
    states, labels := ExtendByDrive(cfg, [s], [], 0, script);
    assert Reading(cfg, 0) == 0;
    AloneIsSequential(cfg, s, 0, script, 0);
    FillingAnswer(cfg, script);
    hide Drive, WithKeyAlone, Run, Reading, Late;
  }

  lemma FillingAnswer(cfg: Config, script: nat -> Fetch)
    requires script(0) == Body(Keys([Some(ANY_KEY)]))
    ensures var a := WithKeyAlone(cfg, Inner(None, None, None), "", 0, (key: Jwk) => Ok(()), script, 0);
            a.inner == Inner(Some(JwkSet([ANY_KEY])), Some(0), Some(0)) && a.fetches == 1
  {
    assert SkipUnusable([Some(ANY_KEY)]) == [ANY_KEY] by {
      assert [Some(ANY_KEY)][1..] == [];
    }
    TryAllSucceeds(JwkSet([ANY_KEY]), "", (key: Jwk) => Ok(()));
    assert ANY_KEY in [ANY_KEY];
    hide TryAll;
  }

  /** The fetch of call 1 is in flight, and the last call waits behind it. */
  ghost predicate InFlight(cfg: Config, s: State, n: nat) {
    && |s.calls| == n + 3 && s.world.holder == Some(1)
    && s.calls[1].pc == Fetching(First) && s.calls[1].past.fetches == [First]
    && s.calls[1].job.now == Reading(cfg, 1)
    && Queue(cfg, s, n, 2)
    && s.calls[n + 2].pc == WaitGate(First)
  }

  /** The next call takes the gate and claims its attempt; the last one then has to wait behind it. */
  lemma Queued(cfg: Config, n: nat) returns (states: seq<State>, labels: seq<Label>)
    ensures Run(cfg, states, labels) && InFlight(cfg, states[|labels|], n)
  {
    states, labels := Filled(cfg, n);
    var s := states[|labels|];
    QueueNext(cfg, s, n, 1);
    states, labels := ExtendToTheGate(cfg, states, labels, 1);
    var s1 := states[|labels|];
    var l := Label(1, TransportError, false);
    states := Extend(cfg, states, labels, l);
    labels := labels + [l];
    var s2 := states[|labels|];
    Claiming(cfg, s1, l);
    states, labels := ExtendToTheGate(cfg, states, labels, n + 2);
    hide Run, Step, PermitsAttempt, PastCeiling, NothingToServe;
  }

  lemma Claiming(cfg: Config, s: State, l: Label)
    requires Enabled(s, l.id) && s.calls[l.id].pc == UnderGate(First, true)
    requires NothingToServe(cfg, s.world.inner, s.calls[l.id].job.now)
    requires PermitsAttempt(cfg, s.world.inner, s.calls[l.id].job.now)
    ensures var t, c := Step(cfg, s, l), s.calls[l.id];
            && t.calls == s.calls[l.id := t.calls[l.id]] && t.calls[l.id].job == c.job
            && t.calls[l.id].pc == Fetching(First) && t.calls[l.id].past.fetches == c.past.fetches + [First]
            && t.world.inner == s.world.inner.(lastAttempt := Some(c.job.now))
            && t.world.holder == s.world.holder && |t.world.claims| == |s.world.claims| + 1
  {
  }

  /** The queue after `k` attempts, with the gate free and the last call still waiting for it. */
  ghost predicate Waiting(cfg: Config, s: State, n: nat, k: nat)
    requires k > 0
  {
    Queue(cfg, s, n, k) && s.world.holder == None && s.calls[n + 2].pc == WaitGate(First)
  }

  /** The fetch the last call waits behind fails. */
  lemma FetchFails(cfg: Config, s: State, n: nat, script: nat -> Fetch)
    requires InFlight(cfg, s, n) && script(0) == TransportError
    ensures Alone(s, 1) && Waiting(cfg, Drive(cfg, s, 1, script, 0), n, 2)
  {
    var t := DriveFetch(cfg, s, 1, script, 0);
    QueueNext(cfg, s, n, 2);
    assert t.calls[1].pc.Done?;
    assert Drive(cfg, t, 1, script, 0) == t;
    hide Drive, Reading, Late, PastCeiling, NothingToServe, PermitsAttempt;
    assert t.world.holder == None;
    forall i | 1 < i < n + 3 ensures t.calls[i] == s.calls[i] {
    }
    assert Queue(cfg, t, n, 2);
  }

  lemma FirstPasses(cfg: Config, n: nat) returns (states: seq<State>, labels: seq<Label>, j: nat)
    ensures Run(cfg, states, labels) && j <= |labels| < |states|
    ensures forall m :: j <= m < |labels| ==> labels[m].id != n + 2
    ensures InFlight(cfg, states[j], n) && PastCeiling(cfg, states[j].world.inner, Late(cfg))
    ensures Waiting(cfg, states[|labels|], n, 2)
  {
    states, labels := Queued(cfg, n);
    j := |labels|;
    QueueNext(cfg, states[j], n, 2);
    var script: nat -> Fetch := m => TransportError;
    FetchFails(cfg, states[j], n, script);
    states, labels := ExtendByDrive(cfg, states, labels, 1, script);
    hide Run, Drive, Waiting, InFlight;
  }

  /** One more call gets the gate first, and its fetch fails too. */
  lemma PassedOnce(cfg: Config, s: State, n: nat, k: nat, script: nat -> Fetch)
    requires 0 < k < n + 2 && Waiting(cfg, s, n, k) && script(0) == TransportError
    ensures Alone(s, k) && Waiting(cfg, Drive(cfg, s, k, script, 0), n, k + 1)
  {
    QueueNext(cfg, s, n, k);
    AloneIsSequential(cfg, s, k, script, 0);
    FailingAnswer(cfg, Plain(s.world.inner), s.calls[k].job, script);
    hide Drive, WithKeyAlone, Reading, Late, NothingToServe, PermitsAttempt;
    var t := Drive(cfg, s, k, script, 0);
    assert Plain(t.world.inner) == Plain(s.world.inner).(lastAttempt := Some(Reading(cfg, k)));
    assert t.world.inner.keys.Some? && t.world.inner.fetchedAt == Some(0);
    assert t.world.holder == None && t.world.inner.lastAttempt == Some(Reading(cfg, k));
    forall i | k < i < n + 3 ensures t.calls[i] == s.calls[i] {
    }
    assert Queue(cfg, t, n, k + 1);
  }

  lemma FailingAnswer(cfg: Config, inner: Inner<JwkSet>, job: Job, script: nat -> Fetch)
    requires NothingToServe(cfg, inner, job.now) && PermitsAttempt(cfg, inner, job.now) && script(0) == TransportError
    ensures var a := WithKeyAlone(cfg, inner, job.kid, job.now, job.check, script, 0);
            a.inner == inner.(lastAttempt := Some(job.now)) && a.fetches == 1
  {
    hide TryAll;
  }

  lemma {:induction false} PassedBy(cfg: Config, n: nat, k: nat) returns (states: seq<State>, labels: seq<Label>, j: nat)
    requires 2 <= k <= n + 2
    ensures Run(cfg, states, labels) && j <= |labels| < |states|
    ensures forall m :: j <= m < |labels| ==> labels[m].id != n + 2
    ensures InFlight(cfg, states[j], n) && PastCeiling(cfg, states[j].world.inner, Late(cfg))
    ensures Waiting(cfg, states[|labels|], n, k)
    decreases k
  {
    hide Run, Waiting, InFlight, Drive, PastCeiling, Alone;
    if k == 2 {
      states, labels, j := FirstPasses(cfg, n);
    } else {
      states, labels, j := PassedBy(cfg, n, k - 1);
      var script: nat -> Fetch := m => TransportError;
      PassedOnce(cfg, states[|labels|], n, k - 1, script);
      states, labels := ExtendByDrive(cfg, states, labels, k - 1, script);
    }
  }

  /**
   A call whose keys are past the ceiling may wait for more than the fetch in flight when it came: for every `n`
   there is a run in which it does, from state `j` to the end, and `n` further fetches of other calls are claimed
   and over before it gets to move, with the gate free again.
   */
  lemma WaitersMayBePassedOver(cfg: Config, n: nat)
      returns (states: seq<State>, labels: seq<Label>, j: nat, waiter: nat)
    ensures Run(cfg, states, labels) && j <= |labels| && waiter < |states[j].calls|
    // it waits behind a fetch, with keys that are past the ceiling
    ensures states[j].calls[waiter].pc.WaitGate? && states[j].world.inner.keys.Some?
    ensures PastCeiling(cfg, states[j].world.inner, states[j].calls[waiter].job.now)
    ensures exists i :: 0 <= i < |states[j].calls| && states[j].calls[i].pc.Fetching?
    // and then only others move, and fetch `n` times
    ensures forall m :: j <= m < |labels| ==> labels[m].id != waiter
    ensures waiter < |states[|labels|].calls| && states[|labels|].calls[waiter].pc.WaitGate?
    ensures states[|labels|].world.holder == None
    ensures |states[|labels|].world.claims| == |states[j].world.claims| + n
  {
    states, labels, j := PassedBy(cfg, n, n + 2);
    waiter := n + 2;
    hide Run;
  }

  // ----- the ceiling error under the gate -----

  /** Step `k` is the re-check under the gate of a call that found nothing to serve, and it gives the ceiling error. */
  ghost predicate CeilingErrorAt(cfg: Config, states: seq<State>, labels: seq<Label>, k: nat) {
    && Run(cfg, states, labels) && k < |labels|
    && states[k].calls[labels[k].id].pc == UnderGate(First, true)
    && states[k + 1].calls[labels[k].id].pc == Releasing(First, Err(StaleKeys))
  }

  /** The call that has waited gets the gate within the interval of the failed attempt before it. */
  lemma ReachesTheCeiling(cfg: Config) returns (states: seq<State>, labels: seq<Label>, k: nat)
    requires cfg.minRefetch > 0
    ensures CeilingErrorAt(cfg, states, labels, k)
  {
    var j: nat;
    states, labels, j := FirstPasses(cfg, 0);
    var s := states[|labels|];
    QueueNext(cfg, s, 0, 2);
    ReadingsAreLate(cfg, 1);
    var l := Label(2, TransportError, false);
    states := Extend(cfg, states, labels, l);
    labels := labels + [l];
    k := |labels|;
    var t := states[k];
    assert t.world.inner == s.world.inner && t.calls[2].pc == UnderGate(First, true);
    states := Extend(cfg, states, labels, l);
    labels := labels + [l];
    DesperateUnderGate(cfg, states, labels, k);
    hide Run, Step, Reading, Late;
  }

  /** The re-check under the gate can give the ceiling error exactly when the interval is positive. */
  lemma CeilingErrorUnderGate(cfg: Config)
    ensures cfg.minRefetch > 0 <==> exists states, labels, k :: CeilingErrorAt(cfg, states, labels, k)
  {
    if cfg.minRefetch > 0 {
      var states, labels, k := ReachesTheCeiling(cfg);
    } else {
      forall states, labels, k | CeilingErrorAt(cfg, states, labels, k)
        ensures false
      {
        DesperateUnderGate(cfg, states, labels, k);
      }
    }
  }

  // ----- when usable keys are lost to a call -----

  /** A call that found usable keys when it began has returned without ever looking its keys up. */
  ghost predicate StarvedAt(cfg: Config, states: seq<State>, labels: seq<Label>, k: nat, id: nat) {
    && Run(cfg, states, labels) && k < |states| && id < |states[k].calls|
    && FoundKeys(cfg, states[k].calls[id])
    && states[k].calls[id].pc.Done? && states[k].calls[id].pc != Done(Panicked)
    && states[k].calls[id].past.uses == []
  }

  lemma {:induction false} BeganStays(cfg: Config, states: seq<State>, labels: seq<Label>, b: nat, k: nat, id: nat)
    requires Run(cfg, states, labels) && b <= k < |states| && id < |states[b].calls| && !states[b].calls[id].pc.Start?
    ensures id < |states[k].calls| && !states[k].calls[id].pc.Start?
    ensures states[k].calls[id].past.began == states[b].calls[id].past.began
    ensures states[k].calls[id].job == states[b].calls[id].job
    decreases k
  {
    hide Run, Advance, Inv;
    if b < k {
      RunSteps(cfg, states, labels, k);
      BeganStays(cfg, states, labels, b, k - 1, id);
      RunInv(cfg, states, labels, k - 1);
      AdvanceGrows(cfg, states[k - 1], labels[k - 1]);
      StartedStays(cfg, states[k - 1], labels[k - 1], id);
    }
  }

  lemma StartedStays(cfg: Config, s: State, l: Label, id: nat)
    requires Enabled(s, l.id) && id < |s.calls| && !s.calls[id].pc.Start?
    ensures !Step(cfg, s, l).calls[id].pc.Start?
    ensures Step(cfg, s, l).calls[id].past.began == s.calls[id].past.began
  {
    BeganIsKept(cfg, s, l, id);
    hide TryAll, Parse, OuterCheck, GateCheck, Snapshot;
  }

  /** A call with an older reading asks for an unknown key, and stamps the set it fetches with that reading. */
  lemma OlderAnswer(cfg: Config, job: Job, script: nat -> Fetch)
    requires cfg.minRefetch == 0 && job.kid == "other"
    requires script(0) == Body(Keys([Some(ANY_KEY)])) && script(1) == script(0)
    ensures var a := WithKeyAlone(cfg, Inner(Some(JwkSet([ANY_KEY])), Some(0), Some(0)), job.kid, job.now, job.check,
                                  script, 0);
            job.now <= 0 ==> a.inner.keys.Some? && a.inner.fetchedAt == Some(job.now)
  {
    assert SkipUnusable([Some(ANY_KEY)]) == [ANY_KEY] by {
      assert [Some(ANY_KEY)][1..] == [];
    }
    TryAllSucceeds(JwkSet([ANY_KEY]), "other", job.check);
    hide TryAll;
  }

  /** Three calls: one fills the cache at zero, one finds the keys stale but usable, one has an older reading. */
  function ThreeCalls(cfg: Config): (s: State)
    ensures Initial(s) && |s.calls| == 3
  {
    State(World(Inner(None, None, None), None, false, [], []),
          [CallAt(0), CallAt(cfg.ttl), Call(Job("other", cfg.ttl - cfg.MaxStale(), (key: Jwk) => Ok(())), Start,
                                            Past(None, None, [], []))])
  }

  /** The second call finds usable keys and begins; then the third puts a set with an earlier fetch time in place. */
  lemma Overtaken(cfg: Config) returns (states: seq<State>, labels: seq<Label>, b: nat)
    requires cfg.minRefetch == 0 && cfg.ttl < cfg.MaxStale()
    ensures Run(cfg, states, labels) && b == |labels|
    ensures |states[b].calls| == 3 && states[b].world.holder == None
    ensures var c := states[b].calls[1];
            c.pc == Outer(First, false) && c.past.uses == [] && c.past.fetches == [] && FoundKeys(cfg, c)
    ensures PastCeiling(cfg, states[b].world.inner, states[b].calls[1].job.now)
  {
    hide Drive, WithKeyAlone;
    var script: nat -> Fetch := m => Body(Keys([Some(ANY_KEY)]));
    var s := ThreeCalls(cfg);
    Begin(cfg, s);
    states, labels := ExtendByDrive(cfg, [s], [], 0, script);
    AloneIsSequential(cfg, s, 0, script, 0);
    FillingAnswer(cfg, script);
    var s1 := states[|labels|];
    assert Plain(s1.world.inner) == Inner(Some(JwkSet([ANY_KEY])), Some(0), Some(0));
    assert s1.calls[1] == s.calls[1] && s1.calls[2] == s.calls[2];
    var l := Label(1, TransportError, false);
    states := Extend(cfg, states, labels, l);
    labels := labels + [l];
    var s2 := states[|labels|];
    assert s2.calls[1].pc == Outer(First, false) && FoundKeys(cfg, s2.calls[1]) && s2.world == s1.world;
    states, labels := ExtendByDrive(cfg, states, labels, 2, script);
    AloneIsSequential(cfg, s2, 2, script, 0);
    OlderAnswer(cfg, s2.calls[2].job, script);
    b := |labels|;
    hide Run, Step, FoundKeys;
  }

  lemma Starves(cfg: Config) returns (states: seq<State>, labels: seq<Label>, k: nat)
    requires cfg.minRefetch == 0 && cfg.ttl < cfg.MaxStale()
    ensures StarvedAt(cfg, states, labels, k, 1)
  {
    var b: nat;
    states, labels, b := Overtaken(cfg);
    var s := states[b];
    var script: nat -> Fetch := m => TransportError;
    states, labels := ExtendByDrive(cfg, states, labels, 1, script);
    var t := DriveRefresh(cfg, s, 1, script, 0);
    k := |labels|;
    BeganStays(cfg, states, labels, b, k, 1);
    assert t.calls[1].pc.Done? && t.calls[1].pc != Done(Panicked) && t.calls[1].past.uses == [] by {
      hide Drive, Run;
    }
    assert Drive(cfg, t, 1, script, 0) == t;
    hide Drive, Run;
  }

  /**
   A call that found usable keys is always served some exactly when the interval is positive, or the ceiling is the
   TTL itself. Otherwise a set with an earlier fetch time can take the place of the keys it found.
   */
  lemma UsableKeysAreServedExactlyWhen(cfg: Config)
    ensures KeepsKeys(cfg) <==> !exists states, labels, k, id :: StarvedAt(cfg, states, labels, k, id)
  {
    if KeepsKeys(cfg) {
      forall states, labels, k, id | StarvedAt(cfg, states, labels, k, id)
        ensures false
      {
        UsableKeysAreServed(cfg, states, labels, k, id);
      }
    } else {
      CeilingCoversTtl(cfg);
      var states, labels, k := Starves(cfg);
    }
  }
}
