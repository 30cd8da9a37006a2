/** Who waits on the fetch gate, and what a waiting call gets. */
module ProtocolWaiting {
  import opened Prelude
  import opened Jwks
  import opened KeyLookup
  import opened CachePolicy
  import opened CacheProtocol
  import opened ProtocolInvariant
  import opened ProtocolSafety

  // ----- only the desperate wait -----

  predicate PastOuterCheck(pc: Pc) {
    pc == TryGate(First, true) || pc == WaitGate(First) || pc == UnderGate(First, true)
  }

  lemma OuterIsKept(cfg: Config, s: State, l: Label, id: nat)
    requires Enabled(s, l.id) && id < |s.calls| && PastOuterCheck(Step(cfg, s, l).calls[id].pc)
    ensures PastOuterCheck(s.calls[id].pc) || (l.id == id && s.calls[id].pc.Outer? && s.calls[id].pc.round == First)
    ensures PastOuterCheck(s.calls[id].pc) ==> Step(cfg, s, l).calls[id].past.outer == s.calls[id].past.outer
    ensures !PastOuterCheck(s.calls[id].pc) ==> Step(cfg, s, l).calls[id].past.outer == Some(s.world.inner)
  {
    hide TryAll, Parse, GateCheck, Snapshot, PermitsAttempt, PastCeiling;
  }

  lemma {:induction false} WhenItChecked(cfg: Config, states: seq<State>, labels: seq<Label>, k: nat, id: nat)
      returns (m: nat)
    requires Run(cfg, states, labels) && k < |states| && id < |states[k].calls| && PastOuterCheck(states[k].calls[id].pc)
    ensures m < k && labels[m].id == id && id < |states[m].calls| && states[m].calls[id].pc.Outer?
    ensures states[k].calls[id].past.outer == Some(states[m].world.inner)
    decreases k
  {
    assert k > 0;
    InstallsGrow(cfg, states, labels, k - 1, k);
    OuterIsKept(cfg, states[k - 1], labels[k - 1], id);
    if PastOuterCheck(states[k - 1].calls[id].pc) {
      m := WhenItChecked(cfg, states, labels, k - 1, id);
    } else {
      m := k - 1;
    }
  }

  /**
   A call blocks on the gate only in its first round, and only if the cache held no keys or keys past the ceiling
   both when it began and at the outer check it made since. While it blocks it holds nothing.
   */
  lemma OnlyTheDesperateWait(cfg: Config, states: seq<State>, labels: seq<Label>, k: nat, id: nat) returns (m: nat)
    requires Run(cfg, states, labels) && k < |states| && id < |states[k].calls| && states[k].calls[id].pc.WaitGate?
    ensures states[k].calls[id].pc == WaitGate(First) && states[k].world.holder != Some(id)
    ensures m < k && labels[m].id == id && id < |states[m].calls| && states[m].calls[id].pc.Outer?
    ensures NothingToServe(cfg, states[m].world.inner, states[k].calls[id].job.now)
    ensures FoundNothing(cfg, states[k].calls[id].job, states[k].calls[id].past)
  {
    RunCallOk(cfg, states, labels, k, id);
    m := WhenItChecked(cfg, states, labels, k, id);
  }

  // ----- what a waiting call gets -----

  /** With a positive interval, sets are installed in the order of their fetch times. */
  lemma InstallTimesRise(cfg: Config, w: World, i: nat, j: nat)
    requires WorldOk(cfg, w) && cfg.minRefetch > 0 && i <= j < |w.installs|
    ensures w.installs[i].at <= w.installs[j].at
  {
    hide Spaced, DataOk;
    if i < j {
      AttemptsRise(cfg, w.claims, w.installs[i].claim, w.installs[j].claim);
    }
  }

  /** The call has, or is bound to get, a set at least as recent as set `i`, without a first-round fetch. */
  ghost predicate Behind(cfg: Config, w: World, c: Call, i: nat) {
    && i < |w.installs|
    && Elapsed(c.job.now, w.installs[i].at) < cfg.MaxStale()
    && First !in c.past.fetches
    && (|| c.pc == WaitGate(First)
        || c.pc == UnderGate(First, true)
        || (c.pc.Releasing? && c.pc.round == First && c.pc.served.Ok? && c.pc.served.value.Some?
              && c.pc.served.value.value.id >= i)
        || (c.pc.Lookup? && c.pc.round == First && c.pc.keys.id >= i && c.past.uses == [])
        || (c.past.uses != [] && c.past.uses[0].id >= i))
  }

  lemma BehindMove(cfg: Config, s: State, l: Label, i: nat)
    requires Enabled(s, l.id) && Local(cfg, s.world, l.id, s.calls[l.id]) && cfg.minRefetch > 0
    requires Behind(cfg, s.world, s.calls[l.id], i)
    ensures Behind(cfg, Advance(cfg, s, l).world, Advance(cfg, s, l).call, i)
  {
    hide TryAll, Parse, Snapshot, PermitsAttempt, Spaced, UsesOk, FetchesOk, NeededRefresh, Servable, Missed, ServedOk,
      NotOlder;
    var w, c := s.world, s.calls[l.id];
    NewestServes(cfg, w, c.job.now, i);
    assert c.pc.Releasing? && c.pc.round == Second ==> c.past.uses != [];
    hide PastCeiling, DataOk, InstallsOk, WorldOk;
  }

  /** A set within the ceiling is, or is followed by, a cached one within the ceiling. */
  lemma NewestServes(cfg: Config, w: World, now: Instant, i: nat)
    requires WorldOk(cfg, w) && cfg.minRefetch > 0 && i < |w.installs|
    requires Elapsed(now, w.installs[i].at) < cfg.MaxStale()
    ensures w.inner.keys.Some? && w.inner.keys.value.id >= i && !PastCeiling(cfg, w.inner, now)
  {
    InstallTimesRise(cfg, w, i, |w.installs| - 1);
  }

  lemma BehindStep(cfg: Config, s: State, l: Label, id: nat, i: nat)
    requires Inv(cfg, s) && Enabled(s, l.id) && id < |s.calls| && cfg.minRefetch > 0
    requires Behind(cfg, s.world, s.calls[id], i)
    ensures Behind(cfg, Step(cfg, s, l).world, Step(cfg, s, l).calls[id], i)
  {
    if l.id == id {
      InvLocal(cfg, s, id);
      BehindMove(cfg, s, l, i);
    } else {
      AdvanceGrows(cfg, s, l);
    }
    hide Advance, Inv;
  }

  lemma {:induction false} StaysBehind(
      cfg: Config, states: seq<State>, labels: seq<Label>, b: nat, k: nat, id: nat, i: nat)
    requires Run(cfg, states, labels) && b <= k < |states| && id < |states[b].calls| && cfg.minRefetch > 0
    requires Behind(cfg, states[b].world, states[b].calls[id], i)
    ensures id < |states[k].calls| && Behind(cfg, states[k].world, states[k].calls[id], i)
    decreases k
  {
    hide Inv, Behind, Step, Run, Enabled;
    if b < k {
      RunSteps(cfg, states, labels, k);
      InstallsGrow(cfg, states, labels, b, k);
      InstallsGrow(cfg, states, labels, b, k - 1);
      StaysBehind(cfg, states, labels, b, k - 1, id, i);
      RunInv(cfg, states, labels, k - 1);
      BehindStep(cfg, states[k - 1], labels[k - 1], id, i);
    }
  }

  /**
   With a positive interval: if a set within the ceiling of a waiting call has been installed by the time it
   still waits, then the call, once finished, has not fetched for itself before its first lookup, and has looked
   its keys up in that set or a later one. Later fetches by others, failures and panics included, change nothing.
   */
  lemma WaitersTakeTheFetch(cfg: Config, states: seq<State>, labels: seq<Label>, b: nat, k: nat, id: nat, i: nat)
    requires Run(cfg, states, labels) && b <= k < |states| && id < |states[b].calls| && cfg.minRefetch > 0
    requires states[b].calls[id].pc.WaitGate? && i < |states[b].world.installs|
    requires Elapsed(states[b].calls[id].job.now, states[b].world.installs[i].at) < cfg.MaxStale()
    ensures id < |states[k].calls| && First !in states[k].calls[id].past.fetches
    ensures states[k].calls[id].pc.Done? ==>
              states[k].calls[id].past.uses != [] && states[k].calls[id].past.uses[0].id >= i
  {
    RunCallOk(cfg, states, labels, b, id);
    StaysBehind(cfg, states, labels, b, k, id, i);
  }

  /**
   A call that gets the gate after finding nothing to serve: it is given the newest set exactly if that is within
   its ceiling; otherwise it fetches if the interval permits; otherwise it fails, with the ceiling error exactly
   if there are keys, and with nothing exactly if there are none.
   */
  lemma DesperateUnderGate(cfg: Config, states: seq<State>, labels: seq<Label>, k: nat)
    requires Run(cfg, states, labels) && k < |labels|
    requires states[k].calls[labels[k].id].pc == UnderGate(First, true)
    ensures var inner, c := states[k].world.inner, states[k].calls[labels[k].id];
            var pc := states[k + 1].calls[labels[k].id].pc;
            var nothing, permitted := NothingToServe(cfg, inner, c.job.now), PermitsAttempt(cfg, inner, c.job.now);
            && (pc == Fetching(First) <==> nothing && permitted)
            && (inner.keys.Some? && pc == Releasing(First, Ok(inner.keys)) <==> !nothing)
            && (pc == Releasing(First, Err(StaleKeys)) <==> nothing && !permitted && inner.keys.Some?)
            && (pc == Releasing(First, Ok(None)) <==> nothing && !permitted && inner.keys.None?)
  {
    RunWorldOk(cfg, states, labels, k);
    hide Spaced, InstallsOk;
  }

  /** The last moment at which a call that has waited stands under the gate. */
  lemma {:induction false} WhenItGotTheGate(cfg: Config, states: seq<State>, labels: seq<Label>, b: nat, k: nat, id: nat)
      returns (m: nat)
    requires Run(cfg, states, labels) && b <= k < |states| && id < |states[b].calls|
    requires states[b].calls[id].pc == WaitGate(First)
    requires id < |states[k].calls| && !PastOuterCheck(states[k].calls[id].pc)
    ensures b < m < k && labels[m].id == id
    ensures id < |states[m].calls| && states[m].calls[id].pc == UnderGate(First, true)
    ensures id < |states[m + 1].calls| && !PastOuterCheck(states[m + 1].calls[id].pc)
    decreases k
  {
    assert b < k;
    InstallsGrow(cfg, states, labels, b, k - 1);
    if PastOuterCheck(states[k - 1].calls[id].pc) {
      WaitingOrNot(cfg, states[k - 1], labels[k - 1], id);
      m := k - 1;
    } else {
      m := WhenItGotTheGate(cfg, states, labels, b, k - 1, id);
    }
  }

  /** A waiting call leaves the gate only through the section under it. */
  lemma WaitingOrNot(cfg: Config, s: State, l: Label, id: nat)
    requires Enabled(s, l.id) && id < |s.calls|
    requires PastOuterCheck(s.calls[id].pc) && !PastOuterCheck(Step(cfg, s, l).calls[id].pc)
    ensures l.id == id && s.calls[id].pc == UnderGate(First, true)
  {
    hide TryAll, Parse, GateCheck, Snapshot, PermitsAttempt, PastCeiling;
  }

  /**
   What becomes of a call once the section under the gate has decided: it has fetched, or it is answered with what
   that section served and nothing else.
   */
  ghost predicate Fate(now: Instant, served: Option<Served<Arc>>, c: Call) {
    && c.job.now == now
    && match served
       case None => First in c.past.fetches
       case Some(r) =>
         && First !in c.past.fetches
         && (|| (&& c.past.uses == [] && c.past.fetches == []
                 && (c.pc == Releasing(First, r) || c.pc == AfterRefresh(First, r)))
             || (r.Ok? && r.value.Some? && c.past.uses != [] && c.past.uses[0] == r.value.value))
  }

  lemma FateMove(cfg: Config, s: State, l: Label, now: Instant, served: Option<Served<Arc>>)
    requires Enabled(s, l.id) && Local(cfg, s.world, l.id, s.calls[l.id])
    requires Fate(now, served, s.calls[l.id])
    ensures Fate(now, served, Advance(cfg, s, l).call)
  {
    hide TryAll, Parse, Snapshot, OuterCheck, PermitsAttempt, PastCeiling, DataOk, Spaced, InstallsOk, UsesOk, FetchesOk,
      NeededRefresh, Servable, Missed, ServedOk, NotOlder;
  }

  lemma {:induction false} KeepsFate(cfg: Config, states: seq<State>, labels: seq<Label>, b: nat, k: nat, id: nat,
                                     now: Instant, served: Option<Served<Arc>>)
    requires Run(cfg, states, labels) && b <= k < |states| && id < |states[b].calls|
    requires Fate(now, served, states[b].calls[id])
    ensures id < |states[k].calls| && Fate(now, served, states[k].calls[id])
    decreases k
  {
    hide Fate, Run, Advance;
    if b < k {
      RunSteps(cfg, states, labels, k);
      KeepsFate(cfg, states, labels, b, k - 1, id, now, served);
      if labels[k - 1].id == id {
        RunCallOk(cfg, states, labels, k - 1, id);
        FateMove(cfg, states[k - 1], labels[k - 1], now, served);
      }
    }
  }

  /** How a call ends that got the gate while the data was `inner`. */
  ghost predicate EndsFrom(cfg: Config, inner: Inner<Arc>, c: Call) {
    if !NothingToServe(cfg, inner, c.job.now) then
      First !in c.past.fetches && c.past.uses != [] && Some(c.past.uses[0]) == inner.keys
    else if PermitsAttempt(cfg, inner, c.job.now) then First in c.past.fetches
    else
      && c.past.fetches == [] && c.past.uses == []
      && c.pc == Done(Returned(Err(if inner.keys.Some? then StaleKeys else NothingFetched)))
  }

  /**
   How waiting ends, in every run: a call that has waited and finished got the gate at some moment `m`. If the keys
   cached then were within its ceiling, its first lookup ran against those very keys and its first round fetched
   nothing. If not, and the interval permitted, it fetched. Otherwise it fetched nothing, looked nothing up and
   failed, with the ceiling error if there were keys and because nothing had been fetched if there were none.
   */
  lemma HowWaitingEnds(cfg: Config, states: seq<State>, labels: seq<Label>, b: nat, k: nat, id: nat) returns (m: nat)
    requires Run(cfg, states, labels) && b <= k < |states| && id < |states[b].calls|
    requires states[b].calls[id].pc.WaitGate? && id < |states[k].calls| && states[k].calls[id].pc.Done?
    ensures b < m < k && labels[m].id == id
    ensures id < |states[m].calls| && states[m].calls[id].pc == UnderGate(First, true)
    ensures EndsFrom(cfg, states[m].world.inner, states[k].calls[id])
  {
    hide Run, Step, Fate, EndsFrom, UsesOk, FetchesOk, WorldOk;
    RunCallOk(cfg, states, labels, b, id);
    m := WhenItGotTheGate(cfg, states, labels, b, k, id);
    hide Local;
    RunCallOk(cfg, states, labels, m, id);
    RunSteps(cfg, states, labels, m + 1);
    RunWorldOk(cfg, states, labels, m);
    var served := FateBegins(cfg, states[m], labels[m]);
    KeepsFate(cfg, states, labels, m + 1, k, id, states[m].calls[id].job.now, served);
    FateEnds(cfg, states[m].world, states[m].calls[id], served, states[k].calls[id]);
  }

  /** What the section under the gate decides for a call that has waited. */
  ghost predicate Decided(cfg: Config, inner: Inner<Arc>, now: Instant, served: Option<Served<Arc>>) {
    if NothingToServe(cfg, inner, now) && PermitsAttempt(cfg, inner, now) then served == None
    else served == Some(ServeWithinCeiling(cfg, inner, now))
  }

  lemma FateBegins(cfg: Config, s: State, l: Label) returns (served: Option<Served<Arc>>)
    requires Enabled(s, l.id) && Local(cfg, s.world, l.id, s.calls[l.id]) && s.calls[l.id].pc == UnderGate(First, true)
    ensures l.id < |Step(cfg, s, l).calls| && Fate(s.calls[l.id].job.now, served, Step(cfg, s, l).calls[l.id])
    ensures Decided(cfg, s.world.inner, s.calls[l.id].job.now, served)
  {
    var pc := Advance(cfg, s, l).call.pc;
    served := if pc.Releasing? then Some(pc.served) else None;
    hide PermitsAttempt, PastCeiling, WorldOk, UsesOk;
  }

  lemma FateEnds(cfg: Config, w: World, c: Call, served: Option<Served<Arc>>, end: Call)
    requires WorldOk(cfg, w) && Decided(cfg, w.inner, c.job.now, served)
    requires Fate(c.job.now, served, end) && end.pc.Done?
    ensures EndsFrom(cfg, w.inner, end)
  {
    hide PermitsAttempt, Spaced, InstallsOk;
  }
}
