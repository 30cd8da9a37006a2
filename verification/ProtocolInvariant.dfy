/** The inductive invariant of the cache protocol, and the proof that every step of every schedule keeps it. */
module ProtocolInvariant {
  import opened Prelude
  import opened Jwks
  import opened KeyLookup
  import opened CachePolicy
  import opened CacheProtocol

  // ----- the shared part -----

  /** The keys are the newest installed set, stamped with its time; the anchor is the time of the newest attempt. */
  ghost predicate DataOk(inner: Inner<Arc>, installs: seq<Installed>, claims: seq<Claim>) {
    && (inner.keys.Some? <==> installs != [])
    && (inner.fetchedAt.Some? <==> installs != [])
    && (installs != [] ==>
          var newest := installs[|installs| - 1];
          && inner.keys == Some(Arc(|installs| - 1, newest.jwks))
          && inner.fetchedAt == Some(newest.at))
    && (inner.lastAttempt.Some? <==> claims != [])
    && (claims != [] ==> inner.lastAttempt == Some(claims[|claims| - 1].now))
  }

  /** No installed set is empty, and each comes from one attempt, in the order of the attempts. */
  ghost predicate InstallsOk(installs: seq<Installed>, claims: seq<Claim>) {
    && (forall i :: 0 <= i < |installs| ==>
          && installs[i].jwks.keys != []
          && installs[i].claim < |claims|
          && claims[installs[i].claim].now == installs[i].at)
    && (forall i, j :: 0 <= i < j < |installs| ==> installs[i].claim < installs[j].claim)
  }

  /** Each attempt is permitted by the one before it. */
  ghost predicate Spaced(cfg: Config, claims: seq<Claim>) {
    forall k :: 0 < k < |claims| ==> Elapsed(claims[k].now, claims[k - 1].now) >= cfg.minRefetch
  }

  ghost predicate WorldOk(cfg: Config, w: World) {
    && DataOk(w.inner, w.installs, w.claims)
    && InstallsOk(w.installs, w.claims)
    && Spaced(cfg, w.claims)
  }

  // ----- the gate -----

  predicate HoldsGate(pc: Pc) {
    pc.UnderGate? || pc.Fetching? || pc.Settling? || pc.Unwinding? || pc.Releasing?
  }

  predicate InFetch(pc: Pc) {
    pc.Fetching? || pc.Settling?
  }

  ghost predicate GateOk(s: State) {
    && (s.world.holder.Some? ==> s.world.holder.value < |s.calls|)
    && forall i :: 0 <= i < |s.calls| ==> (HoldsGate(s.calls[i].pc) <==> s.world.holder == Some(i))
  }

  /** The attempt of a call between its claim and its install is the newest one, and has installed nothing yet. */
  ghost predicate InFetchOk(w: World, id: nat, c: Call) {
    InFetch(c.pc) ==>
      && w.claims != []
      && w.claims[|w.claims| - 1] == Claim(id, c.pc.round, c.job.now)
      && (w.installs != [] ==> w.installs[|w.installs| - 1].claim < |w.claims| - 1)
  }

  /** The rounds in which call `id` claimed an attempt, in order. */
  ghost function ClaimsOf(claims: seq<Claim>, id: nat): seq<Round> {
    if claims == [] then []
    else
      var last := claims[|claims| - 1];
      ClaimsOf(claims[..|claims| - 1], id) + (if last.id == id then [last.round] else [])
  }

  // ----- one call -----

  /** A set that may be handed to the lookups of a call: installed, within the ceiling, not older than its start. */
  ghost predicate Servable(cfg: Config, installs: seq<Installed>, job: Job, past: Past, a: Arc) {
    && a.id < |installs|
    && installs[a.id].jwks == a.jwks
    && Elapsed(job.now, installs[a.id].at) < cfg.MaxStale()
    && past.began.Some?
    && past.began.value.installed <= a.id + 1
  }

  /** The first lookup of the call found no key for its `kid`. */
  ghost predicate Missed(job: Job, past: Past) {
    past.uses != [] && FindAll(past.uses[0].jwks, job.kid) == []
  }

  /** The call found the cache cold, stale or past the ceiling when it began. */
  ghost predicate NeededRefresh(cfg: Config, job: Job, past: Past) {
    past.began.Some? && Snapshot(cfg, past.began.value.inner, job.now).refresh
  }

  ghost predicate UsesOk(cfg: Config, installs: seq<Installed>, job: Job, past: Past) {
    && |past.uses| <= 2
    && (forall i :: 0 <= i < |past.uses| ==> Servable(cfg, installs, job, past, past.uses[i]))
    && (|past.uses| == 2 ==> Missed(job, past) && past.uses[0].id <= past.uses[1].id)
  }

  ghost predicate FetchesOk(cfg: Config, anchor: Option<Instant>, job: Job, past: Past) {
    && (past.fetches == [] || past.fetches == [First] || past.fetches == [Second] || past.fetches == [First, Second])
    && (First in past.fetches ==> NeededRefresh(cfg, job, past))
    && (Second in past.fetches ==> Missed(job, past))
    && (past.fetches != [] ==> anchor.Some?)
    && (past.fetches != [] && cfg.minRefetch > 0 ==> job.now <= anchor.value && |past.fetches| == 1)
  }

  ghost predicate BeganOk(installs: seq<Installed>, c: Call) {
    if c.pc.Start? then Fresh(c) else c.past.began.Some? && c.past.began.value.installed <= |installs|
  }

  /** What a call has behind it when it is in the given round. */
  ghost predicate InRound(job: Job, past: Past, round: Round) {
    match round
    case First => past.uses == [] && Second !in past.fetches
    case Second => |past.uses| == 1 && Missed(job, past)
  }

  /** As `InRound`, before the call claims an attempt in that round. */
  ghost predicate Before(cfg: Config, job: Job, past: Past, round: Round) {
    InRound(job, past, round) && round !in past.fetches && (round == First ==> NeededRefresh(cfg, job, past))
  }

  /** A set taken now is not older than the one the call looked at before. */
  ghost predicate NotOlder(past: Past, a: Arc) {
    past.uses != [] ==> past.uses[0].id <= a.id
  }

  /** The call found nothing to serve when it began. */
  ghost predicate FoundNothing(cfg: Config, job: Job, past: Past) {
    past.began.Some? && NothingToServe(cfg, past.began.value.inner, job.now)
  }

  /** A call is desperate only in its first round, and only if it saw nothing to serve, then and at its outer check. */
  ghost predicate Desperate(cfg: Config, job: Job, past: Past, round: Round) {
    && round == First && FoundNothing(cfg, job, past)
    && past.outer.Some? && NothingToServe(cfg, past.outer.value, job.now)
  }

  /** A refresh that returns keys returns servable ones; only a first refresh may return none. */
  ghost predicate ServedOk(cfg: Config, installs: seq<Installed>, job: Job, past: Past, round: Round, r: Served<Arc>) {
    && (r == Ok(None) ==> round == First)
    && (r.Ok? && r.value.Some? ==> Servable(cfg, installs, job, past, r.value.value) && NotOlder(past, r.value.value))
  }

  ghost predicate AcceptedOk(job: Job, past: Past) {
    past.uses != [] && TryAll(past.uses[|past.uses| - 1].jwks, job.kid, job.check) == Some(Ok(()))
  }

  ghost predicate PcOk(cfg: Config, installs: seq<Installed>, job: Job, past: Past, pc: Pc) {
    match pc
    case Start => true
    case Outer(round, wait) =>
      && Before(cfg, job, past, round)
      && (wait ==> round == First && FoundNothing(cfg, job, past)) && (!wait ==> installs != [])
    case TryGate(round, d) =>
      Before(cfg, job, past, round) && (d ==> Desperate(cfg, job, past, round)) && (!d ==> installs != [])
    case LostRace(round) => Before(cfg, job, past, round) && installs != []
    case WaitGate(round) => Before(cfg, job, past, round) && Desperate(cfg, job, past, round)
    case UnderGate(round, d) =>
      Before(cfg, job, past, round) && (d ==> Desperate(cfg, job, past, round)) && (!d ==> installs != [])
    case Fetching(round) => InRound(job, past, round) && round in past.fetches
    case Settling(round, fetched) =>
      InRound(job, past, round) && round in past.fetches && (fetched.Ok? ==> fetched.value.keys != [])
    case Unwinding => true
    case Releasing(round, served) =>
      InRound(job, past, round) && ServedOk(cfg, installs, job, past, round, served)
    case Lookup(round, a) =>
      InRound(job, past, round) && Servable(cfg, installs, job, past, a) && NotOlder(past, a)
    case Done(outcome) => outcome == Returned(Ok(())) ==> AcceptedOk(job, past)
  }

  ghost predicate CallOk(cfg: Config, w: World, c: Call) {
    && BeganOk(w.installs, c)
    && UsesOk(cfg, w.installs, c.job, c.past)
    && FetchesOk(cfg, w.inner.lastAttempt, c.job, c.past)
    && PcOk(cfg, w.installs, c.job, c.past, c.pc)
  }

  // ----- the invariant -----

  ghost predicate CallsOk(cfg: Config, s: State) {
    forall i :: 0 <= i < |s.calls| ==>
      CallOk(cfg, s.world, s.calls[i]) && InFetchOk(s.world, i, s.calls[i])
  }

  /** The log of attempts and the calls agree. */
  ghost predicate ClaimsOk(s: State) {
    && (forall k :: 0 <= k < |s.world.claims| ==>
          s.world.claims[k].id < |s.calls| && s.world.claims[k].now == s.calls[s.world.claims[k].id].job.now)
    && (forall i :: 0 <= i < |s.calls| ==> ClaimsOf(s.world.claims, i) == s.calls[i].past.fetches)
  }

  ghost predicate Inv(cfg: Config, s: State) {
    WorldOk(cfg, s.world) && GateOk(s) && CallsOk(cfg, s) && ClaimsOk(s)
  }

  lemma InitialInv(cfg: Config, s: State)
    requires Initial(s)
    ensures Inv(cfg, s)
  {
  }

  // ----- what one step may do to the shared part -----

  /** Sets and attempts are only ever added, and with a positive interval the attempt anchor only moves forward. */
  ghost predicate Grows(cfg: Config, w: World, v: World) {
    && w.installs <= v.installs
    && w.claims <= v.claims
    && (w.inner.lastAttempt.Some? ==> v.inner.lastAttempt.Some?)
    && (w.inner.lastAttempt.Some? && cfg.minRefetch > 0 ==> w.inner.lastAttempt.value <= v.inner.lastAttempt.value)
  }

  lemma CallStable(cfg: Config, w: World, v: World, c: Call)
    requires CallOk(cfg, w, c) && Grows(cfg, w, v)
    ensures CallOk(cfg, v, c)
  {
  }

  /** What the invariant says about one call and the shared part alone. */
  ghost predicate Local(cfg: Config, w: World, id: nat, c: Call) {
    && WorldOk(cfg, w)
    && CallOk(cfg, w, c)
    && InFetchOk(w, id, c)
    && (HoldsGate(c.pc) <==> w.holder == Some(id))
  }

  /** What the moving call must show; the other calls are kept by `CallStable`. */
  ghost predicate GoodMove(cfg: Config, w: World, id: nat, c: Call, m: Move) {
    && WorldOk(cfg, m.world)
    && Grows(cfg, w, m.world)
    && CallOk(cfg, m.world, m.call)
    && InFetchOk(m.world, id, m.call)
    && m.call.job == c.job
    && HolderFollows(w, id, m)
    && LogsFollow(w, id, c, m)
    // only the gate holder touches the data
    && (m.world.inner != w.inner ==> w.holder == Some(id))
  }

  ghost predicate HolderFollows(w: World, id: nat, m: Move) {
    if HoldsGate(m.call.pc) then m.world.holder == Some(id) && (w.holder == None || w.holder == Some(id))
    else if w.holder == Some(id) then m.world.holder == None
    else m.world.holder == w.holder
  }

  /** Only the gate holder adds to the logs, and the log of attempts records what the call records. */
  ghost predicate LogsFollow(w: World, id: nat, c: Call, m: Move) {
    && (m.world.installs != w.installs ==> w.holder == Some(id))
    && if m.world.claims == w.claims then m.call.past.fetches == c.past.fetches
       else
         && w.holder == Some(id)
         && |m.world.claims| == |w.claims| + 1
         && var last := m.world.claims[|w.claims|];
            && m.world.claims == w.claims + [last]
            && last.id == id && last.now == c.job.now
            && m.call.past.fetches == c.past.fetches + [last.round]
  }

  lemma ClaimsOfSnoc(claims: seq<Claim>, claim: Claim, id: nat)
    ensures ClaimsOf(claims + [claim], id) == ClaimsOf(claims, id) + (if claim.id == id then [claim.round] else [])
  {
    assert (claims + [claim])[..|claims|] == claims;
  }

  lemma GoodMoveKeepsInv(cfg: Config, s: State, id: nat, m: Move)
    requires Inv(cfg, s) && id < |s.calls| && GoodMove(cfg, s.world, id, s.calls[id], m)
    ensures Inv(cfg, State(m.world, s.calls[id := m.call]))
  {
    var t := State(m.world, s.calls[id := m.call]);
    GateFollows(cfg, s, id, m);
    ClaimsFollow(cfg, s, id, m);
    hide WorldOk, CallOk, InFetchOk, GateOk, ClaimsOk, HolderFollows, LogsFollow, Grows;
    forall i | 0 <= i < |t.calls|
      ensures CallOk(cfg, t.world, t.calls[i]) && InFetchOk(t.world, i, t.calls[i])
    {
      if i != id {
        assert t.calls[i] == s.calls[i];
        CallStable(cfg, s.world, m.world, s.calls[i]);
        InFetchStable(cfg, s, id, m, i);
      }
    }
  }

  lemma GateFollows(cfg: Config, s: State, id: nat, m: Move)
    requires GateOk(s) && id < |s.calls| && HolderFollows(s.world, id, m)
    ensures GateOk(State(m.world, s.calls[id := m.call]))
  {
  }

  /** A call in its fetch holds the gate, so no other call can have claimed an attempt or installed a set. */
  lemma InFetchStable(cfg: Config, s: State, id: nat, m: Move, i: nat)
    requires GateOk(s) && id < |s.calls| && i < |s.calls| && i != id
    requires LogsFollow(s.world, id, s.calls[id], m) && InFetchOk(s.world, i, s.calls[i])
    ensures InFetchOk(m.world, i, s.calls[i])
  {
    if InFetch(s.calls[i].pc) {
      assert s.world.holder == Some(i);
    }
  }

  lemma ClaimsFollow(cfg: Config, s: State, id: nat, m: Move)
    requires ClaimsOk(s) && id < |s.calls| && GoodMove(cfg, s.world, id, s.calls[id], m)
    ensures ClaimsOk(State(m.world, s.calls[id := m.call]))
  {
    if m.world.claims != s.world.claims {
      forall i | 0 <= i < |s.calls|
        ensures ClaimsOf(m.world.claims, i) == (s.calls[id := m.call])[i].past.fetches
      {
        ClaimsOfSnoc(s.world.claims, m.world.claims[|s.world.claims|], i);
      }
    }
  }

  // ----- each kind of step is a good move -----

  lemma ClaimKeepsWorld(cfg: Config, w: World, claim: Claim)
    requires WorldOk(cfg, w) && PermitsAttempt(cfg, w.inner, claim.now)
    ensures WorldOk(cfg, w.(inner := w.inner.(lastAttempt := Some(claim.now)), claims := w.claims + [claim]))
  {
  }

  lemma InstallKeepsWorld(cfg: Config, w: World, jwks: JwkSet)
    requires WorldOk(cfg, w) && jwks.keys != [] && w.claims != []
    requires w.installs != [] ==> w.installs[|w.installs| - 1].claim < |w.claims| - 1
    ensures var now := w.claims[|w.claims| - 1].now;
            WorldOk(cfg, w.(inner := Install(w.inner, now, Arc(|w.installs|, jwks)),
                            installs := w.installs + [Installed(jwks, now, |w.claims| - 1)]))
  {
  }

  /** The history of a call after it claims an attempt. */
  lemma ClaimPast(cfg: Config, w: World, job: Job, past: Past, round: Round)
    requires UsesOk(cfg, w.installs, job, past) && FetchesOk(cfg, w.inner.lastAttempt, job, past)
    requires Before(cfg, job, past, round) && PermitsAttempt(cfg, w.inner, job.now)
    ensures var q := past.(fetches := past.fetches + [round]);
            && UsesOk(cfg, w.installs, job, q)
            && FetchesOk(cfg, Some(job.now), job, q)
            && InRound(job, q, round) && round in q.fetches
  {
    var q := past.(fetches := past.fetches + [round]);
    assert round == First ==> past.fetches == [];
    assert round == Second ==> past.fetches == [] || past.fetches == [First];
    assert q.fetches[|past.fetches|] == round;
  }

  /** The history of a call after a lookup. */
  lemma LookupPast(cfg: Config, w: World, job: Job, past: Past, round: Round, a: Arc)
    requires UsesOk(cfg, w.installs, job, past) && FetchesOk(cfg, w.inner.lastAttempt, job, past)
    requires InRound(job, past, round) && Servable(cfg, w.installs, job, past, a) && NotOlder(past, a)
    ensures var q := past.(uses := past.uses + [a]);
            && UsesOk(cfg, w.installs, job, q)
            && FetchesOk(cfg, w.inner.lastAttempt, job, q)
            && q.uses[|q.uses| - 1] == a
            && (round == First && FindAll(a.jwks, job.kid) == [] ==> Before(cfg, job, q, Second))
  {
    var q := past.(uses := past.uses + [a]);
    assert round == Second ==> q.uses[0] == past.uses[0];
  }

  lemma StartGood(cfg: Config, w: World, id: nat, c: Call)
    requires Local(cfg, w, id, c) && c.pc.Start?
    ensures GoodMove(cfg, w, id, c, MoveStart(cfg, w, c))
  {
    CeilingCoversTtl(cfg);
    hide InstallsOk, Spaced;
  }

  lemma OuterGood(cfg: Config, w: World, id: nat, c: Call)
    requires Local(cfg, w, id, c) && c.pc.Outer?
    ensures GoodMove(cfg, w, id, c, MoveOuter(cfg, w, c, c.pc.round, c.pc.wait))
  {
    hide InstallsOk, Spaced;
  }

  lemma TryGateGood(cfg: Config, w: World, id: nat, c: Call)
    requires Local(cfg, w, id, c) && c.pc.TryGate?
    ensures GoodMove(cfg, w, id, c, MoveTryGate(w, id, c, c.pc.round, c.pc.desperate))
  {
    hide InstallsOk, Spaced, UsesOk, FetchesOk, Missed, NeededRefresh, Servable, NotOlder, NothingToServe, InRound;
  }

  lemma LostRaceGood(cfg: Config, w: World, id: nat, c: Call)
    requires Local(cfg, w, id, c) && c.pc.LostRace?
    ensures GoodMove(cfg, w, id, c, MoveLostRace(cfg, w, c, c.pc.round))
  {
    hide InstallsOk, Spaced, FetchesOk;
  }

  lemma WaitGateGood(cfg: Config, w: World, id: nat, c: Call)
    requires Local(cfg, w, id, c) && c.pc.WaitGate? && w.holder.None?
    ensures GoodMove(cfg, w, id, c, MoveWaitGate(w, id, c, c.pc.round))
  {
    hide InstallsOk, Spaced, UsesOk, FetchesOk, Missed, NeededRefresh, Servable, NotOlder, NothingToServe, InRound;
  }

  lemma UnderGateGood(cfg: Config, w: World, id: nat, c: Call)
    requires Local(cfg, w, id, c) && c.pc.UnderGate?
    ensures GoodMove(cfg, w, id, c, MoveUnderGate(cfg, w, id, c, c.pc.round, c.pc.desperate))
  {
    if GateCheck(cfg, w.inner, c.job.now, c.pc.desperate).Claimed? {
      ClaimGood(cfg, w, id, c);
    } else {
      hide InstallsOk, Spaced, UsesOk, FetchesOk, Missed, NeededRefresh;
    }
  }

  lemma ClaimGood(cfg: Config, w: World, id: nat, c: Call)
    requires Local(cfg, w, id, c) && c.pc.UnderGate?
    requires GateCheck(cfg, w.inner, c.job.now, c.pc.desperate).Claimed?
    ensures GoodMove(cfg, w, id, c, MoveUnderGate(cfg, w, id, c, c.pc.round, c.pc.desperate))
  {
    ClaimKeepsWorld(cfg, w, Claim(id, c.pc.round, c.job.now));
    ClaimPast(cfg, w, c.job, c.past, c.pc.round);
    hide InstallsOk, Spaced, UsesOk, FetchesOk, Missed, NeededRefresh, InRound;
  }

  lemma FetchingGood(cfg: Config, w: World, id: nat, c: Call, fetch: Fetch)
    requires Local(cfg, w, id, c) && c.pc.Fetching?
    ensures GoodMove(cfg, w, id, c, MoveFetching(w, c, c.pc.round, fetch))
  {
    hide InstallsOk, Spaced, UsesOk, FetchesOk, Missed, NeededRefresh, Servable, NotOlder, NothingToServe, InRound;
  }

  lemma SettlingGood(cfg: Config, w: World, id: nat, c: Call)
    requires Local(cfg, w, id, c) && c.pc.Settling?
    ensures GoodMove(cfg, w, id, c, MoveSettling(cfg, w, c, c.pc.round, c.pc.fetched))
  {
    if c.pc.fetched.Ok? {
      InstallGood(cfg, w, id, c);
    } else {
      hide InstallsOk, Spaced, UsesOk, FetchesOk, Missed, NeededRefresh;
    }
  }

  lemma InstallGood(cfg: Config, w: World, id: nat, c: Call)
    requires Local(cfg, w, id, c) && c.pc.Settling? && c.pc.fetched.Ok?
    ensures GoodMove(cfg, w, id, c, MoveSettling(cfg, w, c, c.pc.round, c.pc.fetched))
  {
    hide InstallsOk, Spaced, FetchesOk, Missed, NeededRefresh, InRound, DataOk;
    CeilingCoversTtl(cfg);
    InstallKeepsWorld(cfg, w, c.pc.fetched.value);
    var m := MoveSettling(cfg, w, c, c.pc.round, c.pc.fetched);
    CallStable(cfg, w, m.world, c);
    var a := Arc(|w.installs|, c.pc.fetched.value);
    assert Servable(cfg, m.world.installs, c.job, c.past, a) && NotOlder(c.past, a);
    hide UsesOk, Servable, NotOlder;
  }

  lemma UnwindingGood(cfg: Config, w: World, id: nat, c: Call)
    requires Local(cfg, w, id, c) && c.pc.Unwinding?
    ensures GoodMove(cfg, w, id, c, MoveUnwinding(w, c))
  {
    hide InstallsOk, Spaced, UsesOk, FetchesOk, Missed, NeededRefresh, Servable, NotOlder, NothingToServe, InRound;
  }

  lemma ReleasingGood(cfg: Config, w: World, id: nat, c: Call)
    requires Local(cfg, w, id, c) && c.pc.Releasing?
    ensures GoodMove(cfg, w, id, c, MoveReleasing(w, c, c.pc.round, c.pc.served))
  {
    hide InstallsOk, Spaced, UsesOk, FetchesOk, Missed, NeededRefresh, Servable, NotOlder, NothingToServe, InRound;
  }

  lemma LookupGood(cfg: Config, w: World, id: nat, c: Call, checkPanics: bool)
    requires Local(cfg, w, id, c) && c.pc.Lookup?
    ensures GoodMove(cfg, w, id, c, MoveLookup(w, c, c.pc.round, c.pc.keys, checkPanics))
  {
    TryKeysAnswer(FindAll(c.pc.keys.jwks, c.job.kid), c.job.check);
    LookupPast(cfg, w, c.job, c.past, c.pc.round, c.pc.keys);
    var found := TryAll(c.pc.keys.jwks, c.job.kid, c.job.check);
    assert found.None? <==> FindAll(c.pc.keys.jwks, c.job.kid) == [];
    hide TryAll, TryKeys, FindAll, DataOk, InstallsOk, Spaced, UsesOk, FetchesOk, Missed, NeededRefresh, NotOlder,
      Servable, NothingToServe, InRound, Before;
  }

  lemma AdvanceGood(cfg: Config, s: State, l: Label)
    requires Inv(cfg, s) && Enabled(s, l.id)
    ensures GoodMove(cfg, s.world, l.id, s.calls[l.id], Advance(cfg, s, l))
  {
    var w, id, c := s.world, l.id, s.calls[l.id];
    assert Local(cfg, w, id, c);
    hide GoodMove, Local, Inv, MoveStart, MoveOuter, MoveTryGate, MoveLostRace, MoveWaitGate, MoveUnderGate,
      MoveFetching, MoveSettling, MoveUnwinding, MoveReleasing, MoveLookup;
    match c.pc
    case Start => StartGood(cfg, w, id, c);
    case Outer(_, _) => OuterGood(cfg, w, id, c);
    case TryGate(_, _) => TryGateGood(cfg, w, id, c);
    case LostRace(_) => LostRaceGood(cfg, w, id, c);
    case WaitGate(_) => WaitGateGood(cfg, w, id, c);
    case UnderGate(_, _) => UnderGateGood(cfg, w, id, c);
    case Fetching(_) => FetchingGood(cfg, w, id, c, l.fetch);
    case Settling(_, _) => SettlingGood(cfg, w, id, c);
    case Unwinding => UnwindingGood(cfg, w, id, c);
    case Releasing(_, _) => ReleasingGood(cfg, w, id, c);
    case Lookup(_, _) => LookupGood(cfg, w, id, c, l.checkPanics);
  }

  lemma InvLocal(cfg: Config, s: State, id: nat)
    requires Inv(cfg, s) && id < |s.calls|
    ensures Local(cfg, s.world, id, s.calls[id])
  {
  }

  lemma AdvanceGrows(cfg: Config, s: State, l: Label)
    requires Inv(cfg, s) && Enabled(s, l.id)
    ensures s.world.installs <= Advance(cfg, s, l).world.installs
    ensures Advance(cfg, s, l).call.job == s.calls[l.id].job
  {
    AdvanceGood(cfg, s, l);
    hide Advance, Inv, WorldOk, CallOk, InFetchOk, HolderFollows, LogsFollow;
  }

  /** Every step of every call, however the environment answers it, keeps the invariant. */
  lemma StepKeepsInv(cfg: Config, s: State, l: Label)
    requires Inv(cfg, s) && Enabled(s, l.id)
    ensures Inv(cfg, Step(cfg, s, l))
  {
    AdvanceGood(cfg, s, l);
    GoodMoveKeepsInv(cfg, s, l.id, Advance(cfg, s, l));
  }

  /** The invariant holds in every state of every run. */
  lemma {:induction false} RunInv(cfg: Config, states: seq<State>, labels: seq<Label>, k: nat)
    requires Run(cfg, states, labels) && k < |states|
    ensures Inv(cfg, states[k])
    decreases k
  {
    hide Inv, Step, Run, Enabled, Initial;
    if k == 0 {
      RunStarts(cfg, states, labels);
      InitialInv(cfg, states[0]);
    } else {
      RunSteps(cfg, states, labels, k);
      RunInv(cfg, states, labels, k - 1);
      StepKeepsInv(cfg, states[k - 1], labels[k - 1]);
    }
  }

  /** What `RunInv` says of the shared part. */
  lemma RunWorldOk(cfg: Config, states: seq<State>, labels: seq<Label>, k: nat)
    requires Run(cfg, states, labels) && k < |states|
    ensures WorldOk(cfg, states[k].world)
  {
    hide Run;
    RunInv(cfg, states, labels, k);
  }

  /** What `RunInv` says of one call. */
  lemma RunCallOk(cfg: Config, states: seq<State>, labels: seq<Label>, k: nat, id: nat)
    requires Run(cfg, states, labels) && k < |states| && id < |states[k].calls|
    ensures Local(cfg, states[k].world, id, states[k].calls[id])
  {
    hide Run;
    RunInv(cfg, states, labels, k);
    InvLocal(cfg, states[k], id);
  }
}
