/** Progress: no schedule deadlocks, and every schedule is finite. */
module ProtocolLiveness {
  import opened Prelude
  import opened Jwks
  import opened KeyLookup
  import opened CachePolicy
  import opened CacheProtocol
  import opened ProtocolInvariant

  /** An upper bound on the steps a call in this place can still take. */
  function Rank(pc: Pc): nat {
    match pc
    case Start => 17
    case Done(_) => 0
    case Unwinding => 1
    case Outer(round, _) => 7 + Rest(round)
    case TryGate(round, _) => 6 + Rest(round)
    case LostRace(round) => 5 + Rest(round)
    case WaitGate(round) => 5 + Rest(round)
    case UnderGate(round, _) => 4 + Rest(round)
    case Fetching(round) => 3 + Rest(round)
    case Settling(round, _) => 2 + Rest(round)
    case Releasing(round, _) => 1 + Rest(round)
    case Lookup(round, _) => Rest(round)
  }

  /** Steps left once a lookup of this round is due, that lookup included. */
  function Rest(round: Round): nat {
    if round == First then 9 else 1
  }

  /** Steps left for all calls together. */
  function Work(calls: seq<Call>): nat {
    if calls == [] then 0 else Rank(calls[0].pc) + Work(calls[1..])
  }

  lemma RankDecreases(cfg: Config, s: State, l: Label)
    requires Enabled(s, l.id)
    ensures Rank(Advance(cfg, s, l).call.pc) < Rank(s.calls[l.id].pc)
  {
    hide TryAll, Parse, OuterCheck, GateCheck, Snapshot, FallBack, ServeWithinCeiling;
  }

  lemma {:induction false} WorkAfter(calls: seq<Call>, id: nat, c: Call)
    requires id < |calls|
    ensures Work(calls[id := c]) == Work(calls) - Rank(calls[id].pc) + Rank(c.pc)
  {
    if id == 0 {
      assert calls[id := c][1..] == calls[1..];
    } else {
      assert calls[id := c][1..] == calls[1..][id - 1 := c];
      WorkAfter(calls[1..], id - 1, c);
    }
  }

  /** Every step of every call, however the environment answers, uses up some of the remaining work. */
  lemma StepDoesWork(cfg: Config, s: State, l: Label)
    requires Enabled(s, l.id)
    ensures Work(Step(cfg, s, l).calls) < Work(s.calls)
  {
    RankDecreases(cfg, s, l);
    WorkAfter(s.calls, l.id, Advance(cfg, s, l).call);
  }

  lemma {:induction false} WorkAtStart(calls: seq<Call>)
    requires forall i :: 0 <= i < |calls| ==> calls[i].pc.Start?
    ensures Work(calls) == 17 * |calls|
  {
    if calls != [] {
      assert forall i :: 0 <= i < |calls[1..]| ==> calls[1..][i] == calls[i + 1];
      WorkAtStart(calls[1..]);
    }
  }

  lemma {:induction false} WorkLeft(cfg: Config, states: seq<State>, labels: seq<Label>, k: nat)
    requires Connected(cfg, states, labels) && k < |states|
    ensures k + Work(states[k].calls) <= Work(states[0].calls)
    decreases k
  {
    if k > 0 {
      WorkLeft(cfg, states, labels, k - 1);
      StepDoesWork(cfg, states[k - 1], labels[k - 1]);
    }
  }

  /**
   Any finite set of calls is finished after at most 17 steps per call, under every scheduler, fair or not: no
   schedule is longer.
   */
  lemma SchedulesAreFinite(cfg: Config, states: seq<State>, labels: seq<Label>)
    requires Run(cfg, states, labels)
    ensures |labels| <= 17 * |states[0].calls|
  {
    WorkLeft(cfg, states, labels, |labels|);
    WorkAtStart(states[0].calls);
  }

  /**
   The gate holder can always move; when nobody holds the gate, every unfinished call can.
   */
  lemma SomeoneCanMove(s: State, unfinished: nat) returns (id: nat)
    requires GateOk(s) && unfinished < |s.calls| && !s.calls[unfinished].pc.Done?
    ensures Enabled(s, id)
    ensures s.world.holder.Some? ==> id == s.world.holder.value
  {
    id := if s.world.holder.Some? then s.world.holder.value else unfinished;
  }

  /**
   No deadlock: in every reachable state a call is stuck only while it waits for a gate that another call holds,
   and that call can move. So a schedule that cannot be extended has finished every call.
   */
  lemma NoDeadlock(cfg: Config, states: seq<State>, labels: seq<Label>, k: nat, id: nat) returns (mover: nat)
    requires Run(cfg, states, labels) && k < |states| && id < |states[k].calls| && !states[k].calls[id].pc.Done?
    ensures Enabled(states[k], mover)
    ensures !Enabled(states[k], id) ==>
              && states[k].calls[id].pc.WaitGate?
              && mover != id
              && states[k].world.holder == Some(mover)
  {
    RunInv(cfg, states, labels, k);
    mover := SomeoneCanMove(states[k], id);
  }

  lemma MaximalSchedulesFinishEveryCall(cfg: Config, states: seq<State>, labels: seq<Label>)
    requires Run(cfg, states, labels)
    requires forall id :: !Enabled(states[|labels|], id)
    ensures forall i :: 0 <= i < |states[|labels|].calls| ==> states[|labels|].calls[i].pc.Done?
  {
    forall i | 0 <= i < |states[|labels|].calls|
      ensures states[|labels|].calls[i].pc.Done?
    {
      if !states[|labels|].calls[i].pc.Done? {
        var mover := NoDeadlock(cfg, states, labels, |labels|, i);
      }
    }
  }

  // ----- what does not hold others up -----

  /**
   A lookup runs with nothing held: it can always be scheduled, changes nothing shared, and can be exchanged with
   any step of any other call, so signature checks are never serialised behind each other or behind a fetch.
   */
  lemma LookupsAreIndependent(cfg: Config, s: State, l: Label, other: Label)
    requires l.id < |s.calls| && s.calls[l.id].pc.Lookup? && other.id != l.id && Enabled(s, other.id)
    ensures Enabled(s, l.id) && Step(cfg, s, l).world == s.world
    ensures Enabled(Step(cfg, s, l), other.id) && Enabled(Step(cfg, s, other), l.id)
    ensures Step(cfg, Step(cfg, s, l), other) == Step(cfg, Step(cfg, s, other), l)
  {
    var t, u := Step(cfg, s, l), Step(cfg, s, other);
    SameMove(cfg, s, t, other);
    LookupMove(cfg, s, u, l);
    hide Advance;
    assert s.calls[l.id := t.calls[l.id]][other.id := u.calls[other.id]]
        == s.calls[other.id := u.calls[other.id]][l.id := t.calls[l.id]];
  }

  /** A move depends on the shared part and the record of its call alone. */
  lemma SameMove(cfg: Config, s: State, t: State, l: Label)
    requires Enabled(s, l.id) && l.id < |t.calls| && t.world == s.world && t.calls[l.id] == s.calls[l.id]
    ensures Enabled(t, l.id) && Advance(cfg, t, l) == Advance(cfg, s, l)
  {
  }

  /** A lookup depends on the record of its call alone. */
  lemma LookupMove(cfg: Config, s: State, t: State, l: Label)
    requires l.id < |s.calls| && s.calls[l.id].pc.Lookup?
    requires l.id < |t.calls| && t.calls[l.id] == s.calls[l.id]
    ensures Enabled(s, l.id) && Enabled(t, l.id)
    ensures Advance(cfg, t, l).call == Advance(cfg, s, l).call
    ensures Advance(cfg, t, l).world == t.world && Advance(cfg, s, l).world == s.world
  {
    hide TryAll;
  }

  /**
   A gate poisoned by a panicking fetcher works like a healthy one, though `try_lock` and `lock` then answer with a
   poison error: every call can do exactly what it could, and goes on exactly as it would have.
   */
  lemma PoisonIsRecovered(cfg: Config, s: State, l: Label)
    requires Enabled(s, l.id)
    ensures var poisoned := s.(world := s.world.(poisoned := true));
            && Enabled(poisoned, l.id)
            && Step(cfg, poisoned, l) == Step(cfg, s, l).(world := Step(cfg, s, l).world.(poisoned := true))
  {
    hide TryAll, Parse, OuterCheck, GateCheck, Snapshot, FallBack, ServeWithinCeiling;
  }
}
