/**
 `JwksCache::with_key` run by any number of calls at once, as a transition system. One step of a call is one
 acquisition of the data lock, one operation on the fetch gate, one fetch, or one lookup with nothing held.

 Every call has its own `now`, captured before it started, so the clock readings seen in lock order are
 arbitrary. A schedule names, step by step, which call moves next and how the environment answers it.
 */
module CacheProtocol {
  import opened Prelude
  import opened Jwks
  import opened KeyLookup
  import opened CachePolicy

  /** A shared reference to an installed key set; `id` is the identity of the allocation. */
  datatype Arc = Arc(id: nat, jwks: JwkSet)

  /** Which of the two refreshes of one call: the one for a cold or stale cache, or the rotation one. */
  datatype Round = First | Second

  /** Where a call stands. */
  datatype Pc =
    | Start
    | Outer(round: Round, wait: bool)
    | TryGate(round: Round, desperate: bool)
    | LostRace(round: Round)
    | WaitGate(round: Round)
    | UnderGate(round: Round, desperate: bool)
    | Fetching(round: Round)
    | Settling(round: Round, fetched: Result<JwkSet, Error>)
    | Unwinding
    | Releasing(round: Round, served: Served<Arc>)
    | Lookup(round: Round, keys: Arc)
    | Done(outcome: Outcome<()>)

  /** What a call of `with_key` was given. */
  datatype Job = Job(kid: string, now: Instant, check: Jwk -> Result<(), Error>)

  /**
   History of a call, which no step reads: the data and the number of installed sets when it began, the data at
   its first outer check, the rounds in which it fetched, and the sets its lookups ran against.
   */
  datatype Past = Past(
    began: Option<Began>,
    outer: Option<Inner<Arc>>,
    fetches: seq<Round>,
    uses: seq<Arc>)

  datatype Call = Call(job: Job, pc: Pc, past: Past)

  datatype Began = Began(inner: Inner<Arc>, installed: nat)

  /** History of the cache: every set ever installed, and every claimed fetch attempt, in order. */
  datatype Installed = Installed(jwks: JwkSet, at: Instant, claim: nat)
  datatype Claim = Claim(id: nat, round: Round, now: Instant)

  /** The shared part: the data behind the lock, the gate (its holder, and whether a panic poisoned it). */
  datatype World = World(
    inner: Inner<Arc>,
    holder: Option<nat>,
    poisoned: bool,
    installs: seq<Installed>,
    claims: seq<Claim>)

  /** A call is named by its index. */
  datatype State = State(world: World, calls: seq<Call>)

  /** Which call moves, what a fetch answers if it fetches, and whether its check panics if it looks up. */
  datatype Label = Label(id: nat, fetch: Fetch, checkPanics: bool)

  // ----- the steps -----

  /** Where a call goes when a refresh returns. */
  function AfterRefresh(round: Round, served: Served<Arc>): Pc {
    match served
    case Err(e) => Done(Returned(Err(e)))
    case Ok(Some(keys)) => Lookup(round, keys)
    case Ok(None) => Done(Returned(Err(if round == First then NothingFetched else UnknownKid)))
  }

  /** The new shared part and the new record of the moving call. */
  datatype Move = Move(world: World, call: Call)

  function MoveStart(cfg: Config, w: World, c: Call): Move {
    var view := Snapshot(cfg, w.inner, c.job.now);
    var pc := if view.refresh then Outer(First, view.keys.None?) else Lookup(First, view.keys.value);
    Move(w, c.(pc := pc, past := c.past.(began := Some(Began(w.inner, |w.installs|)))))
  }

  function MoveOuter(cfg: Config, w: World, c: Call, round: Round, wait: bool): Move {
    var pc := match OuterCheck(cfg, w.inner, c.job.now, wait)
              case TurnedAway(served) => AfterRefresh(round, served)
              case Proceed(desperate) => TryGate(round, desperate);
    Move(w, c.(pc := pc, past := if round == First then c.past.(outer := Some(w.inner)) else c.past))
  }

  /** What `try_lock` answers: a gate that is free is handed over, as an error if a panic has poisoned it. */
  datatype TryLocked = Acquired | Poisoned | WouldBlock

  function TryLock(w: World): TryLocked {
    if w.holder.Some? then WouldBlock else if w.poisoned then Poisoned else Acquired
  }

  /** `try_lock`: the guard is taken out of a poison error too; a held gate turns away all but the desperate. */
  function MoveTryGate(w: World, id: nat, c: Call, round: Round, desperate: bool): Move {
    match TryLock(w)
    case Acquired => Move(w.(holder := Some(id)), c.(pc := UnderGate(round, desperate)))
    case Poisoned => Move(w.(holder := Some(id)), c.(pc := UnderGate(round, desperate)))
    case WouldBlock => Move(w, c.(pc := if desperate then WaitGate(round) else LostRace(round)))
  }

  function MoveLostRace(cfg: Config, w: World, c: Call, round: Round): Move {
    Move(w, c.(pc := AfterRefresh(round, ServeWithinCeiling(cfg, w.inner, c.job.now))))
  }

  /** `lock`: it blocks while the gate is held; afterwards the guard is taken out of a poison error too. */
  function MoveWaitGate(w: World, id: nat, c: Call, round: Round): Move {
    match TryLock(w)
    case Acquired => Move(w.(holder := Some(id)), c.(pc := UnderGate(round, true)))
    case Poisoned => Move(w.(holder := Some(id)), c.(pc := UnderGate(round, true)))
    case WouldBlock => Move(w, c)
  }

  function MoveUnderGate(cfg: Config, w: World, id: nat, c: Call, round: Round, desperate: bool): Move {
    match GateCheck(cfg, w.inner, c.job.now, desperate)
    case Satisfied(served) => Move(w, c.(pc := Releasing(round, served)))
    case Claimed(inner) =>
      Move(w.(inner := inner, claims := w.claims + [Claim(id, round, c.job.now)]),
           c.(pc := Fetching(round), past := c.past.(fetches := c.past.fetches + [round])))
  }

  function MoveFetching(w: World, c: Call, round: Round, fetch: Fetch): Move {
    var pc := match fetch
              case Body(doc) => Settling(round, Parse(doc))
              case TransportError => Settling(round, Err(FetchFailed))
              case FetchPanics => Unwinding;
    Move(w, c.(pc := pc))
  }

  function MoveSettling(cfg: Config, w: World, c: Call, round: Round, fetched: Result<JwkSet, Error>): Move {
    match fetched
    case Ok(jwks) =>
      var keys := Arc(|w.installs|, jwks);
      Move(w.(inner := Install(w.inner, c.job.now, keys),
              installs := w.installs + [Installed(jwks, c.job.now, if |w.claims| == 0 then 0 else |w.claims| - 1)]),
           c.(pc := Releasing(round, Ok(Some(keys)))))
    case Err(e) => Move(w, c.(pc := Releasing(round, FallBack(cfg, w.inner, c.job.now, e))))
  }

  /** The gate guard is dropped by the unwinding, which poisons the gate. */
  function MoveUnwinding(w: World, c: Call): Move {
    Move(w.(holder := None, poisoned := true), c.(pc := Done(Panicked)))
  }

  function MoveReleasing(w: World, c: Call, round: Round, served: Served<Arc>): Move {
    Move(w.(holder := None), c.(pc := AfterRefresh(round, served)))
  }

  /** A lookup runs on the held reference alone: it takes no lock. A check can only panic if a key matches. */
  function MoveLookup(w: World, c: Call, round: Round, keys: Arc, checkPanics: bool): Move {
    var pc := match TryAll(keys.jwks, c.job.kid, c.job.check)
              case Some(result) => Done(if checkPanics then Panicked else Returned(result))
              case None => if round == First then Outer(Second, false) else Done(Returned(Err(UnknownKid)));
    Move(w, c.(pc := pc, past := c.past.(uses := c.past.uses + [keys])))
  }

  /** A call can move unless it has finished, or waits for a gate that is held. */
  predicate Enabled(s: State, id: nat) {
    id < |s.calls| && !s.calls[id].pc.Done? && (s.calls[id].pc.WaitGate? ==> s.world.holder.None?)
  }

  function Advance(cfg: Config, s: State, l: Label): Move
    requires Enabled(s, l.id)
  {
    var w, c := s.world, s.calls[l.id];
    match c.pc
    case Start => MoveStart(cfg, w, c)
    case Outer(round, wait) => MoveOuter(cfg, w, c, round, wait)
    case TryGate(round, desperate) => MoveTryGate(w, l.id, c, round, desperate)
    case LostRace(round) => MoveLostRace(cfg, w, c, round)
    case WaitGate(round) => MoveWaitGate(w, l.id, c, round)
    case UnderGate(round, desperate) => MoveUnderGate(cfg, w, l.id, c, round, desperate)
    case Fetching(round) => MoveFetching(w, c, round, l.fetch)
    case Settling(round, fetched) => MoveSettling(cfg, w, c, round, fetched)
    case Unwinding => MoveUnwinding(w, c)
    case Releasing(round, served) => MoveReleasing(w, c, round, served)
    case Lookup(round, keys) => MoveLookup(w, c, round, keys, l.checkPanics)
  }

  function Step(cfg: Config, s: State, l: Label): State
    requires Enabled(s, l.id)
  {
    var m := Advance(cfg, s, l);
    State(m.world, s.calls[l.id := m.call])
  }

  // ----- runs -----

  predicate Fresh(c: Call) {
    c.pc == Start && c.past == Past(None, None, [], [])
  }

  /** A new cache, and any number of calls that have not started. */
  ghost predicate Initial(s: State) {
    && s.world == World(Inner(None, None, None), None, false, [], [])
    && forall i :: 0 <= i < |s.calls| ==> Fresh(s.calls[i])
  }

  ghost predicate Connected(cfg: Config, states: seq<State>, labels: seq<Label>) {
    && |states| == |labels| + 1
    && forall i :: 0 <= i < |labels| ==>
         Enabled(states[i], labels[i].id) && states[i + 1] == Step(cfg, states[i], labels[i])
  }

  /** A run: the states a schedule passes through, from a new cache. */
  ghost predicate Run(cfg: Config, states: seq<State>, labels: seq<Label>) {
    Connected(cfg, states, labels) && Initial(states[0])
  }

  lemma RunStarts(cfg: Config, states: seq<State>, labels: seq<Label>)
    requires Run(cfg, states, labels)
    ensures states != [] && Initial(states[0])
  {
  }

  lemma RunSteps(cfg: Config, states: seq<State>, labels: seq<Label>, k: nat)
    requires Run(cfg, states, labels) && 0 < k < |states|
    ensures k - 1 < |labels| && Enabled(states[k - 1], labels[k - 1].id)
    ensures states[k] == Step(cfg, states[k - 1], labels[k - 1])
  {
  }
}
